/** Buying and selling, one await at a time.  Every database write and every network
    call may fail, may take effect although it reports a failure, and may be the last
    thing the process does; the books stay sound at every one of these points. */
module TradeExecution {
  import opened Blocks
  import opened TradeBooks

  /** How one awaited call ends; `applied` tells whether it took effect all the same. */
  datatype Fault = Fine | Fails(applied: bool) | Dies(applied: bool)

  datatype Observation = Pending | Absent | RpcError | Seen

  /** Everything outside the process, indexed by a clock that every await advances.
      `agrees` is what the checks made then find: a token judged safe, an admissible entry
      amount, the recorded wallet, a sufficient allowance, a balance that can be read. */
  datatype World = World(
    fault: nat -> Fault,
    rejects: nat -> bool,
    agrees: nat -> bool,
    balance: nat -> int,
    sees: nat -> Observation)

  /** Nothing fails and the process goes on. */
  ghost predicate NoFaults(w: World) {
    forall k: nat :: w.fault(k).Fine?
  }

  /** Nothing fails during the `n` awaits that begin at time `from`. */
  ghost predicate Calm(w: World, from: nat, n: nat) {
    forall k: nat :: from <= k < from + n ==> w.fault(k).Fine?
  }

  /** Every check made passes. */
  ghost predicate Agreeable(w: World) {
    forall k: nat :: w.agrees(k)
  }

  ghost predicate Smooth(w: World) {
    NoFaults(w) && Agreeable(w)
  }

  /** A write that ends this way has taken effect. */
  predicate Stores(f: Fault) {
    f.Fine? || f.applied
  }

  /** The wallet pays when it buys and is paid when it sells. */
  predicate Plausible(m: Mined, step: Step) {
    (step.Buy? ==> m.transfer <= 0) && (step.Sell? ==> m.transfer >= 0)
  }

  datatype Fate = Done | Refused | Died

  /** Why an execution failed; `h` is the transaction left to reconcile. */
  datatype Failure = Plain | OutcomeUnknown(h: nat) | Unmeasured(h: nat) | RevertedOnChain | Unsafe

  datatype Outcome<+T> = Ok(value: T) | Error(failure: Failure) | Dead

  // ------------------------------------------------- what each write keeps

  function WithTrade(b: Books, side: Side): Books {
    b.(trades := b.trades[b.nextTrade := side], nextTrade := b.nextTrade + 1)
  }

  function WithRow(b: Books, x: Tx): Books {
    b.(rows := b.rows[b.nextHash := x], nextHash := b.nextHash + 1)
  }

  function WithUpdate(b: Books, h: nat, x: Tx): Books {
    b.(rows := b.rows[h := x])
  }

  ghost predicate NoBuyRows(b: Books) {
    forall h :: h in b.rows ==> !b.rows[h].step.Buy?
  }

  lemma TradeKeeps(net: Network, b: Books, side: Side)
    requires Inv(net, b) && (side.BuySide? ==> NoBuyRows(b))
    ensures Inv(net, WithTrade(b, side))
  {
    var c := WithTrade(b, side);
    forall h | h in c.rows ensures RowOk(c, h) {
      assert RowOk(b, h);
    }
  }

  /** Trade `t` may get a transaction for `step`. */
  ghost predicate Addable(net: Network, b: Books, t: nat, step: Step) {
    && t in b.trades && b.trades[t] == SideOf(step)
    && (forall h :: h in b.rows && b.rows[h].trade == t ==>
          step.Sell? && b.rows[h].step.Approve? && b.rows[h].status.Confirmed? && b.rows[h].gas == Some(net(h).gas))
    && (step.Buy? ==> NoBuyRows(b) && !b.session.status.WaitingFirstBuy?
                      && forall u :: u in b.trades && b.trades[u].BuySide? ==> u <= t)
    && (b.session.unreconciled.Some? && b.session.unreconciled.value in b.rows ==>
          b.rows[b.session.unreconciled.value].trade != t)
  }

  lemma RowKeeps(net: Network, b: Books, t: nat, step: Step, before: int)
    requires Inv(net, b) && Addable(net, b, t, step)
    ensures Inv(net, WithRow(b, Tx(t, step, PendingBroadcast, before, None, None)))
  {
    var c := WithRow(b, Tx(t, step, PendingBroadcast, before, None, None));
    forall h | h in c.rows ensures RowOk(c, h) && Truthful(net, c.rows, h) {
      if h != b.nextHash {
        assert RowOk(b, h) && Truthful(net, b.rows, h);
      }
    }
    forall g, h | g in c.rows && h in c.rows ensures InOrder(c.rows, g, h) && BuiltOn(net, c.rows, g, h) {
      if g != b.nextHash {
        assert RowOk(b, g);
        if h != b.nextHash {
          assert InOrder(b.rows, g, h) && BuiltOn(net, b.rows, g, h);
        }
      } else if h != b.nextHash {
        assert RowOk(b, h);
      }
    }
    PositionStays(net, b, c);
  }

  /** Rows that are only added to keep what entry and exit say about their own trades. */
  lemma PositionStays(net: Network, b: Books, c: Books)
    requires PositionOk(net, b) && c.session == b.session && OnePerStep(b.rows) && OnePerStep(c.rows)
    requires forall h :: h in b.rows ==> h in c.rows && c.rows[h].trade == b.rows[h].trade && c.rows[h].step == b.rows[h].step
    requires forall h :: h in c.rows && h !in b.rows && c.rows[h].step.Approve? ==>
      forall g :: g in b.rows ==> b.rows[g].trade != c.rows[h].trade
    ensures PositionOk(net, c)
  {
    if b.session.entry.Some? {
      var e := b.session.entry.value;
      var h :| BoughtBy(net, b.rows, e, h);
      assert BoughtBy(net, c.rows, e, h);
    }
    if b.session.exit.Some? {
      var e := b.session.exit.value;
      var h :| SoldBy(net, b.rows, e, h);
      ApprovalGasStays(net, b.rows, c.rows, e.trade);
      assert SoldBy(net, c.rows, e, h);
    }
  }

  lemma ApprovalGasStays(net: Network, rows: map<nat, Tx>, more: map<nat, Tx>, t: nat)
    requires OnePerStep(rows) && OnePerStep(more)
    requires forall h :: h in rows ==> h in more && more[h].trade == rows[h].trade && more[h].step == rows[h].step
    requires forall h :: h in more && h !in rows && more[h].trade == t ==> !more[h].step.Approve?
    ensures ApprovalGas(net, more, t) == ApprovalGas(net, rows, t)
  {
    if exists g :: IsApproval(more, t, g) {
      var g :| IsApproval(more, t, g);
      assert IsApproval(rows, t, g);
      ApprovalGasIs(net, more, t, g);
      ApprovalGasIs(net, rows, t, g);
    } else if exists g :: IsApproval(rows, t, g) {
      var g :| IsApproval(rows, t, g);
      assert IsApproval(more, t, g);
    }
  }

  /** `x` may replace row `h`: same identity, true, and not undoing an approval that was built on. */
  ghost predicate Replaces(net: Network, b: Books, h: nat, x: Tx) {
    && h in b.rows
    && x.trade == b.rows[h].trade && x.step == b.rows[h].step && x.before == b.rows[h].before
    && Truthful(net, b.rows[h := x], h)
    && (x.step.Approve? ==> (x.status.Confirmed? && x.gas == Some(net(h).gas)) || Resumable(b.rows, h))
  }

  lemma UpdateKeeps(net: Network, b: Books, h: nat, x: Tx)
    requires Inv(net, b) && Replaces(net, b, h, x)
    ensures Inv(net, WithUpdate(b, h, x))
  {
    var c := WithUpdate(b, h, x);
    forall g | g in c.rows ensures RowOk(c, g) && Truthful(net, c.rows, g) {
      assert RowOk(b, g) && Truthful(net, b.rows, g);
    }
    forall f, g | f in c.rows && g in c.rows ensures InOrder(c.rows, f, g) && BuiltOn(net, c.rows, f, g) {
      assert InOrder(b.rows, f, g) && BuiltOn(net, b.rows, f, g);
    }
    PositionStays(net, b, c);
  }

  /** A session that may be stored. */
  ghost predicate Storable(net: Network, b: Books, s: Session) {
    && (s.unreconciled.Some? ==> Resumable(b.rows, s.unreconciled.value))
    && (s.entry.Some? ==> EntryOk(net, b.rows, s.entry.value))
    && (s.exit.Some? ==> ExitOk(net, b.rows, s.exit.value))
    && (s.status.WaitingFirstBuy? ==> NoBuyRows(b))
  }

  lemma SessionKeeps(net: Network, b: Books, s: Session)
    requires Inv(net, b) && Storable(net, b, s)
    ensures Inv(net, b.(session := s))
  {
    var c := b.(session := s);
    forall h | h in c.rows ensures RowOk(c, h) {
      assert RowOk(b, h);
    }
  }

  lemma SendKeeps(net: Network, b: Books, h: nat)
    requires Inv(net, b) && h in b.rows && forall i :: 0 <= i < |b.sent| ==> b.sent[i] < h
    ensures Inv(net, b.(sent := b.sent + [h]))
  {
    var c := b.(sent := b.sent + [h]);
    forall g | g in c.rows ensures RowOk(c, g) {
      assert RowOk(b, g);
    }
  }

  /** From `b` to `c` only trade `t` has got new transactions; nothing already there has
      changed, and at most new transactions have been sent. */
  ghost predicate Grew(b: Books, c: Books, t: nat) {
    && c.session == b.session
    && (forall u :: u in b.trades ==> u in c.trades && c.trades[u] == b.trades[u])
    && (forall h :: h in b.rows ==> h in c.rows && c.rows[h] == b.rows[h])
    && (forall h :: h in c.rows && h !in b.rows ==> c.rows[h].trade == t)
    && b.sent <= c.sent
    && b.nextTrade <= c.nextTrade && b.nextHash <= c.nextHash
  }

  /** The transaction left to reconcile belongs to trade `t` and step `s`, and may be resumed. */
  ghost predicate LeftOpen(b: Books, h: nat, t: nat) {
    Resumable(b.rows, h) && b.rows[h].trade == t
  }

  ghost predicate FailureOk(b: Books, f: Failure, t: nat) {
    && (f.OutcomeUnknown? ==> LeftOpen(b, f.h, t))
    && (f.Unmeasured? ==> LeftOpen(b, f.h, t))
  }

  /** Row `h` is stored as confirmed with its gas. */
  ghost predicate IsConfirmed(net: Network, b: Books, h: nat, t: nat, step: Step) {
    && h in b.rows && b.rows[h].trade == t && b.rows[h].step == step
    && b.rows[h].status.Confirmed? && b.rows[h].gas == Some(net(h).gas)
  }

  /** The wallet's balance once `h` is mined, nothing else touching the wallet meanwhile. */
  function BalanceAfter(net: Network, b: Books, h: nat): int
    requires h in b.rows
  {
    b.rows[h].before + Net(net, b.rows, h)
  }

  class TradeExecutor {
    const net: Network
    const world: World
    var books: Books
    var clock: nat

    constructor (net: Network, world: World, books: Books)
      ensures this.net == net && this.world == world && this.books == books && clock == 0
    {
      this.net, this.world, this.books, clock := net, world, books, 0;
    }

    method Tick() returns (f: Fault)
      modifies this`clock
      ensures f == world.fault(old(clock)) && clock == old(clock) + 1
    {
      f := world.fault(clock);
      clock := clock + 1;
    }

    /** One database transaction that would take the books to `next`. */
    method Save(next: Books) returns (f: Fate)
      modifies this
      ensures clock == old(clock) + 1
      ensures books == if Stores(world.fault(old(clock))) then next else old(books)
      ensures f == match world.fault(old(clock)) case Fine => Done case Fails(_) => Refused case Dies(_) => Died
    {
      var fault := Tick();
      match fault {
        case Fine =>
          books := next;
          f := Done;
        case Fails(applied) =>
          if applied { books := next; }
          f := Refused;
        case Dies(applied) =>
          if applied { books := next; }
          f := Died;
      }
    }

    method SaveRow(h: nat, x: Tx) returns (f: Fate)
      requires Inv(net, books) && Replaces(net, books, h, x)
      modifies this
      ensures Inv(net, books)
      ensures books == old(books) || books == WithUpdate(old(books), h, x)
      ensures f.Done? ==> books == WithUpdate(old(books), h, x)
      ensures clock == old(clock) + 1 && (world.fault(old(clock)).Fine? ==> f.Done?)
    {
      UpdateKeeps(net, books, h, x);
      f := Save(WithUpdate(books, h, x));
    }

    /** Record that the outcome is unknown; failing to record it changes nothing for the caller. */
    method RaiseUnknown(h: nat, x: Tx) returns (r: Outcome<nat>)
      requires Inv(net, books) && Replaces(net, books, h, x.(status := Unknown)) && Resumable(books.rows, h)
      modifies this
      ensures Inv(net, books)
      ensures books == old(books) || books == WithUpdate(old(books), h, x.(status := Unknown))
      ensures r == Dead || r == Error(OutcomeUnknown(h))
    {
      var f := SaveRow(h, x.(status := Unknown));
      r := if f.Died? then Dead else Error(OutcomeUnknown(h));
    }

    method StoreRow(t: nat, step: Step, before: int) returns (r: Outcome<nat>)
      requires Inv(net, books) && Addable(net, books, t, step)
      modifies this
      ensures Inv(net, books)
      ensures books == old(books) || books == WithRow(old(books), NewRow(t, step, before))
      ensures r.Ok? ==> r.value == old(books).nextHash && books == WithRow(old(books), NewRow(t, step, before)) && Newest(books, r.value)
      ensures r.Error? ==> r.failure == Plain
      ensures clock == old(clock) + 1 && (Calm(world, old(clock), 1) ==> r.Ok?)
    {
      var h := books.nextHash;
      RowKeeps(net, books, t, step, before);
      FreshRow(net, books, t, step, before);
      var f := Save(WithRow(books, NewRow(t, step, before)));
      r := if f.Done? then Ok(h) else if f.Died? then Dead else Error(Plain);
    }

    /** Give a stored transaction to the network and record that it was given. */
    method HandOver(h: nat) returns (r: Outcome<nat>)
      requires Inv(net, books) && Newest(books, h) && books.rows[h].status.PendingBroadcast? && books.rows[h].gas.None? && books.rows[h].after.None?
      modifies this
      ensures Inv(net, books) && OnlyRow(old(books), books, h)
      ensures r.Ok? ==> r.value == h && books.rows[h] == old(books).rows[h].(status := Broadcasted) && books.sent == old(books).sent + [h]
      ensures Calm(world, old(clock), 2) ==> r.Ok? && clock == old(clock) + 2
      ensures r.Error? ==> r.failure == OutcomeUnknown(h) || r.failure == Plain
    {
      var x := books.rows[h];
      var fault := Tick();
      if fault != Dies(false) {
        SendKeeps(net, books, h);
        books := books.(sent := books.sent + [h]);
      }
      if fault.Dies? {
        return Dead;
      }
      if fault.Fails? {
        if world.rejects(clock) {
          var f := SaveRow(h, x.(status := Rejected));
          return if f.Died? then Dead else Error(Plain);
        }
        r := RaiseUnknown(h, x);
        return;
      }
      x := x.(status := Broadcasted);
      var f := SaveRow(h, x);
      if f.Refused? {
        r := RaiseUnknown(h, x);
      } else {
        r := if f.Died? then Dead else Ok(h);
      }
    }

    /** Store the row, hand the transaction to the network, wait for its receipt.  The
        row is there before the network sees anything. */
    method Submit(t: nat, step: Step, before: int) returns (r: Outcome<nat>)
      requires Inv(net, books) && Addable(net, books, t, step)
      modifies this
      ensures Inv(net, books) && Grew(old(books), books, t)
      ensures r.Ok? ==> IsConfirmed(net, books, r.value, t, step) && r.value !in old(books).rows
      ensures OnlyNew(old(books), books, step)
      ensures r.Error? ==> FailureOk(books, r.failure, t)
      ensures r.Ok? ==> r.value == old(books).nextHash && books.sent == old(books).sent + [r.value]
      ensures Calm(world, old(clock), 5) ==> SentAndReceived(net, old(books), books, r) && clock == old(clock) + 5
    {
      ghost var b0 := books;
      r := StoreRow(t, step, before);
      if !r.Ok? {
        return;
      }
      var h := r.value;
      ghost var b1 := books;
      r := HandOver(h);
      if r.Ok? {
        r := AwaitReceipt(h);
      }
      OnlyRowStays(net, b0, b1, books, h, t, step, before);
    }

    method AwaitReceipt(h: nat) returns (r: Outcome<nat>)
      requires Inv(net, books) && Resumable(books.rows, h)
      requires books.rows[h].gas.None? && books.rows[h].after.None? && !books.rows[h].status.Confirmed?
      modifies this
      ensures Inv(net, books) && OnlyRow(old(books), books, h) && books.sent == old(books).sent
      ensures r.Ok? ==> r.value == h && books.rows[h].status.Confirmed? && books.rows[h].gas == Some(net(h).gas)
      ensures r.Error? ==> r.failure == OutcomeUnknown(h) || r.failure == RevertedOnChain
      ensures Calm(world, old(clock), 2) ==>
        r == (if net(h).success then Ok(h) else Error(RevertedOnChain)) && clock == old(clock) + 2
    {
      var x := books.rows[h];
      var fault := Tick();
      if fault.Dies? {
        return Dead;
      }
      if fault.Fails? {
        r := RaiseUnknown(h, x);
        return;
      }
      x := x.(status := if net(h).success then Confirmed else Reverted, gas := Some(net(h).gas));
      var f := SaveRow(h, x);
      if f.Refused? {
        r := RaiseUnknown(h, x);
      } else {
        r := if f.Died? then Dead else if net(h).success then Ok(h) else Error(RevertedOnChain);
      }
    }
  
    /** Calls that only read, quote or prepare: they can fail, but leave no trace in the books. */
    method Prepare() returns (r: Outcome<nat>)
      requires Inv(net, books)
      modifies this
      ensures books == old(books)
      ensures r.Error? ==> r.failure == Plain
      ensures Calm(world, old(clock), 1) ==> r.Ok? && clock == old(clock) + 1
    {
      var fault := Tick();
      if fault.Fails? {
        var f := Save(books);  // the trade is marked as failed
        return if f.Died? then Dead else Error(Plain);
      }
      r := if fault.Dies? then Dead else Ok(0);
    }

    /** Store the balance read after a confirmed transaction; when that fails, the
        transaction is left open for reconciliation. */
    method Measure(h: nat, readable: bool) returns (r: Outcome<nat>)
      requires Inv(net, books) && Resumable(books.rows, h) && books.rows[h].status.Confirmed? && books.rows[h].gas == Some(net(h).gas)
      modifies this
      ensures Inv(net, books) && OnlyRow(old(books), books, h) && books.sent == old(books).sent
      ensures books.rows[h].status.Confirmed? && books.rows[h].gas == Some(net(h).gas)
      ensures r.Ok? ==> readable
      ensures r.Error? ==> r.failure == Unmeasured(h)
      ensures Calm(world, old(clock), 2) ==> r == (if readable then Ok(h) else Error(Unmeasured(h))) && clock == old(clock) + 2
    {
      var x := books.rows[h];
      var fault := Tick();
      if fault.Dies? {
        return Dead;
      }
      var f := Refused;
      if fault.Fine? && readable {
        x := x.(after := Some(BalanceAfter(net, books, h)));
        f := SaveRow(h, x);
      }
      if f.Refused? {
        f := SaveRow(h, x);  // record the failed measurement; failing again changes nothing
        return if f.Died? then Dead else Error(Unmeasured(h));
      }
      r := if f.Died? then Dead else Ok(h);
    }

    method Approval(t: nat) returns (r: Outcome<nat>)
      requires Inv(net, books) && Addable(net, books, t, Approve)
      modifies this
      ensures Inv(net, books) && Grew(old(books), books, t) && OnlyNew(old(books), books, Approve)
      ensures r.Ok? ==> (exists h :: h !in old(books).rows && IsConfirmed(net, books, h, t, Approve) && r.value == net(h).gas)
      ensures r.Error? ==> FailureOk(books, r.failure, t)
      ensures NoFaults(world) ==> r == if net(old(books).nextHash).success then Ok(net(old(books).nextHash).gas) else Error(RevertedOnChain)
    {
      ghost var b0 := books;
      r := Prepare();
      if !r.Ok? {
        return;
      }
      r := Submit(t, Approve, world.balance(clock));
      if !r.Ok? {
        if r == Error(Plain) {
          var f := Save(books);  // the trade is marked as failed
          r := if f.Died? then Dead else Error(Plain);
        }
        return;
      }
      var h := r.value;
      ghost var b1 := books;
      OwnRow(net, b0, b1, t, Approve, h);
      r := Measure(h, true);
      OnlyRowGrew(b0, b1, books, t, Approve, h);
      if r.Ok? {
        assert IsConfirmed(net, books, h, t, Approve);
        r := Ok(net(h).gas);
      }
    }

    method OpenTrade(side: Side) returns (r: Outcome<nat>)
      requires Inv(net, books) && (side.BuySide? ==> NoBuyRows(books))
      modifies this
      ensures Inv(net, books)
      ensures books == old(books) || books == WithTrade(old(books), side)
      ensures r.Ok? ==> r.value == old(books).nextTrade && books == WithTrade(old(books), side)
      ensures r.Error? ==> r.failure == Plain
      ensures clock == old(clock) + 1 && (Calm(world, old(clock), 1) ==> r.Ok?)
    {
      var t := books.nextTrade;
      TradeKeeps(net, books, side);
      var f := Save(WithTrade(books, side));
      r := if f.Done? then Ok(t) else if f.Died? then Dead else Error(Plain);
    }

    method PurchaseUnder(t: nat) returns (r: Outcome<Entry>)
      requires Inv(net, books) && Addable(net, books, t, Buy)
      modifies this
      ensures Inv(net, books) && Grew(old(books), books, t) && OnlyNew(old(books), books, Buy)
      ensures r.Ok? ==> EntryOk(net, books.rows, r.value) && r.value.trade == t && books.sent == old(books).sent + [old(books).nextHash]
      ensures r.Error? ==> FailureOk(books, r.failure, t)
      ensures Calm(world, old(clock), 7) ==> MeasuredOrReverted(net, old(books), books, r) && (r.Ok? ==> clock == old(clock) + 7)
      ensures Calm(world, old(clock), 7) && Agreeable(world) && Plausible(net(old(books).nextHash), Buy) ==>
        r.Ok? == net(old(books).nextHash).success
    {
      ghost var b0 := books;
      var p := Submit(t, Buy, world.balance(clock));
      if !p.Ok? {
        return if p.Dead? then Dead else Error(p.failure);
      }
      var h := p.value;
      ghost var b1 := books;
      OwnRow(net, b0, b1, t, Buy, h);
      var gas := net(h).gas;
      var debit := books.rows[h].before - BalanceAfter(net, books, h);
      p := Measure(h, world.agrees(clock) && debit >= gas);
      OnlyRowGrew(b0, b1, books, t, Buy, h);
      if !p.Ok? {
        return if p.Dead? then Dead else Error(p.failure);
      }
      r := Ok(Entry(t, debit - gas, gas));
      assert BoughtBy(net, books.rows, r.value, h);
    }

    /** One purchase under a trade of its own. */
    method Purchase() returns (r: Outcome<Entry>)
      requires Inv(net, books) && NoBuyRows(books) && !books.session.status.WaitingFirstBuy?
      modifies this
      ensures Inv(net, books) && Grew(old(books), books, old(books).nextTrade)
      ensures |books.sent| <= |old(books).sent| + 1
      ensures r.Ok? ==> EntryOk(net, books.rows, r.value) && r.value.trade == old(books).nextTrade
      ensures r.Error? ==> FailureOk(books, r.failure, old(books).nextTrade)
      ensures Calm(world, old(clock), 9) ==> MeasuredOrReverted(net, old(books), books, r) && (r.Ok? ==> clock == old(clock) + 9)
      ensures Calm(world, old(clock), 9) && Agreeable(world) && Plausible(net(old(books).nextHash), Buy) ==>
        r.Ok? == net(old(books).nextHash).success
    {
      ghost var b0 := books;
      var o := OpenTrade(BuySide);
      FreshTrade(net, b0, BuySide, Buy);
      if !o.Ok? {
        return if o.Dead? then Dead else Error(o.failure);
      }
      ghost var b1 := books;
      var p := Prepare();
      if !p.Ok? {
        return if p.Dead? then Dead else Error(p.failure);
      }
      r := PurchaseUnder(o.value);
      TradeThenGrew(b0, b1, books, BuySide);
    }

    method SaleUnder(t: nat, approvalGas: nat) returns (r: Outcome<Exit>)
      requires Inv(net, books) && Addable(net, books, t, Sell) && approvalGas == ApprovalGas(net, books.rows, t)
      modifies this
      ensures Inv(net, books) && Grew(old(books), books, t) && OnlyNew(old(books), books, Sell)
      ensures r.Ok? ==> ExitOk(net, books.rows, r.value) && r.value.trade == t && books.sent == old(books).sent + [old(books).nextHash]
      ensures r.Error? ==> FailureOk(books, r.failure, t)
      ensures NoFaults(world) ==> MeasuredOrReverted(net, old(books), books, r)
      ensures Smooth(world) && Plausible(net(old(books).nextHash), Sell) ==> r.Ok? == net(old(books).nextHash).success
    {
      ghost var b0 := books;
      var p := Submit(t, Sell, world.balance(clock));
      if !p.Ok? {
        return if p.Dead? then Dead else Error(p.failure);
      }
      var h := p.value;
      ghost var b1 := books;
      OwnSale(b0, b1, h);
      var gas := net(h).gas;
      var proceeds := BalanceAfter(net, books, h) - books.rows[h].before + gas;
      p := Measure(h, world.agrees(clock) && proceeds >= 0);
      SaleGrew(net, b0, b1, books, t, h);
      if !p.Ok? {
        return if p.Dead? then Dead else Error(p.failure);
      }
      r := Ok(Exit(t, proceeds, approvalGas + gas));
      assert SoldBy(net, books.rows, r.value, h);
    }

    /** Approve unless the allowance suffices.  A trade taken over from recovery never approves again. */
    method EnsureAllowance(t: nat, recovered: Option<nat>) returns (r: Outcome<nat>)
      requires Inv(net, books)
      requires recovered.None? ==> Addable(net, books, t, Approve)
      requires recovered.Some? ==> Addable(net, books, t, Sell) && recovered.value == ApprovalGas(net, books.rows, t)
      modifies this
      ensures Inv(net, books) && Grew(old(books), books, t)
      ensures if recovered.Some? then books == old(books) else OnlyNew(old(books), books, Approve)
      ensures r.Ok? ==> Addable(net, books, t, Sell) && r.value == ApprovalGas(net, books.rows, t)
      ensures r.Error? ==> FailureOk(books, r.failure, t)
      ensures NoFaults(world) ==> !r.Dead?
      ensures Smooth(world) ==> r.Ok? && books == old(books)
    {
      ghost var b0 := books;
      var p := Prepare();
      if !p.Ok? {
        return p;
      }
      if world.agrees(clock) {
        NoApproval(net, books, t, recovered);
        return Ok(if recovered.Some? then recovered.value else 0);
      }
      if recovered.Some? {
        var f := Save(books);  // the trade is marked as failed
        return if f.Died? then Dead else Error(Plain);
      }
      r := Approval(t);
      if r.Ok? {
        ApprovalDone(net, b0, books, t, r.value);
      }
    }

    /** One sale, under a trade of its own or under one that recovery has taken over. */
    method Sale(recovered: Option<(nat, nat)>) returns (r: Outcome<Exit>)
      requires Inv(net, books)
      requires recovered.Some? ==>
        Addable(net, books, recovered.value.0, Sell) && recovered.value.1 == ApprovalGas(net, books.rows, recovered.value.0)
      modifies this
      ensures Inv(net, books)
      ensures Grew(old(books), books, if recovered.Some? then recovered.value.0 else old(books).nextTrade)
      ensures recovered.Some? ==> OnlyNew(old(books), books, Sell)
      ensures r.Ok? ==> ExitOk(net, books.rows, r.value)
      ensures NoFaults(world) ==> !r.Dead?
      ensures Smooth(world) && old(books).session.entry.Some? ==> SoldOrReverted(net, old(books), books, r)
      ensures r.Error? ==> FailureOk(books, r.failure, if recovered.Some? then recovered.value.0 else old(books).nextTrade)
    {
      ghost var b0 := books;
      if books.session.entry.None? {
        return Error(Plain);
      }
      var t: nat;
      if recovered.Some? {
        t := recovered.value.0;
        var f := Save(books);
        if !f.Done? || !world.agrees(clock) {  // another wallet than the recorded one is unsafe
          return if f.Died? then Dead else Error(if f.Done? then Unsafe else Plain);
        }
      } else {
        var o := OpenTrade(SellSide);
        FreshTrade(net, b0, SellSide, Approve);
        if !o.Ok? {
          return if o.Dead? then Dead else Error(o.failure);
        }
        t := o.value;
      }
      ghost var b1 := books;
      r := SaleOf(t, if recovered.Some? then Some(recovered.value.1) else None);
      if recovered.None? {
        TradeThenGrew(b0, b1, books, SellSide);
      }
    }

    method SaleOf(t: nat, recovered: Option<nat>) returns (r: Outcome<Exit>)
      requires Inv(net, books)
      requires recovered.None? ==> Addable(net, books, t, Approve)
      requires recovered.Some? ==> Addable(net, books, t, Sell) && recovered.value == ApprovalGas(net, books.rows, t)
      modifies this
      ensures Inv(net, books) && Grew(old(books), books, t)
      ensures recovered.Some? ==> OnlyNew(old(books), books, Sell)
      ensures r.Ok? ==> ExitOk(net, books.rows, r.value)
      ensures r.Error? ==> FailureOk(books, r.failure, t)
      ensures NoFaults(world) ==> !r.Dead?
      ensures Smooth(world) ==> SoldOrReverted(net, old(books), books, r)
    {
      ghost var b0 := books;
      var p := EnsureAllowance(t, recovered);
      if !p.Ok? {
        return if p.Dead? then Dead else Error(p.failure);
      }
      ghost var b1 := books;
      r := SaleUnder(t, p.value);
      GrewTwice(b0, b1, books, t);
    }
  }

  /** A sale row is never an approval, so it may always be resumed. */
  lemma OwnSale(b: Books, c: Books, h: nat)
    requires OnlyNew(b, c, Sell) && h in c.rows && h !in b.rows
    ensures Resumable(c.rows, h)
  {
  }

  lemma SaleGrew(net: Network, b: Books, c: Books, d: Books, t: nat, h: nat)
    requires Inv(net, b) && Inv(net, c) && Inv(net, d) && Grew(b, c, t) && OnlyNew(b, c, Sell) && h !in b.rows && h in c.rows
    requires OnlyRow(c, d, h) && d.sent == c.sent && c.rows[h].trade == t
    ensures Grew(b, d, t) && OnlyNew(b, d, Sell) && LeftOpen(d, h, t)
    ensures ApprovalGas(net, d.rows, t) == ApprovalGas(net, b.rows, t)
  {
    ApprovalGasStays(net, b.rows, d.rows, t);
  }

  lemma NoApproval(net: Network, b: Books, t: nat, recovered: Option<nat>)
    requires recovered.None? ==> Addable(net, b, t, Approve)
    requires recovered.Some? ==> Addable(net, b, t, Sell) && recovered.value == ApprovalGas(net, b.rows, t)
    ensures Addable(net, b, t, Sell)
    ensures ApprovalGas(net, b.rows, t) == if recovered.Some? then recovered.value else 0
  {
    if recovered.None? {
      assert !exists g :: IsApproval(b.rows, t, g);
    }
  }

  lemma ApprovalDone(net: Network, b: Books, c: Books, t: nat, gas: nat)
    requires Inv(net, c) && Addable(net, b, t, Approve) && Grew(b, c, t) && OnlyNew(b, c, Approve)
    requires UnreconciledOk(b)
    requires exists h :: h !in b.rows && IsConfirmed(net, c, h, t, Approve) && gas == net(h).gas
    ensures Addable(net, c, t, Sell) && gas == ApprovalGas(net, c.rows, t)
  {
    var h :| h !in b.rows && IsConfirmed(net, c, h, t, Approve) && gas == net(h).gas;
    assert IsApproval(c.rows, t, h);
    ApprovalGasIs(net, c.rows, t, h);
  }

  lemma GrewTwice(b: Books, c: Books, d: Books, t: nat)
    requires Grew(b, c, t) && Grew(c, d, t)
    ensures Grew(b, d, t)
  {
  }

  /** Trade `t` has just been opened. */
  lemma FreshTrade(net: Network, b: Books, side: Side, step: Step)
    requires Inv(net, b) && side == SideOf(step)
    requires step.Buy? ==> NoBuyRows(b) && !b.session.status.WaitingFirstBuy?
    ensures Addable(net, WithTrade(b, side), b.nextTrade, step)
    ensures forall h :: h in b.rows ==> b.rows[h].trade != b.nextTrade
  {
    forall h | h in b.rows ensures b.rows[h].trade < b.nextTrade {
      assert RowOk(b, h);
    }
  }

  lemma TradeThenGrew(b: Books, c: Books, d: Books, side: Side)
    requires c == WithTrade(b, side) && Grew(c, d, b.nextTrade) && b.nextTrade !in b.trades
    ensures Grew(b, d, b.nextTrade)
  {
  }

  /** A row that was just added for a trade without transactions may be resumed. */
  lemma OwnRow(net: Network, b: Books, c: Books, t: nat, step: Step, h: nat)
    requires Addable(net, b, t, step) && Grew(b, c, t) && OnlyNew(b, c, step) && h !in b.rows && h in c.rows && c.rows[h].step == step
    ensures Resumable(c.rows, h)
  {
  }

  lemma OnlyRowGrew(b: Books, c: Books, d: Books, t: nat, step: Step, h: nat)
    requires Grew(b, c, t) && OnlyNew(b, c, step) && h !in b.rows && OnlyRow(c, d, h) && d.sent == c.sent
    requires Resumable(c.rows, h) && c.rows[h].trade == t
    ensures Grew(b, d, t) && OnlyNew(b, d, step) && LeftOpen(d, h, t)
  {
  }

  function NewRow(t: nat, step: Step, before: int): Tx {
    Tx(t, step, PendingBroadcast, before, None, None)
  }

  /** Row `h` is later than everything sent so far, and may be resumed. */
  ghost predicate Newest(b: Books, h: nat) {
    Resumable(b.rows, h) && forall i :: 0 <= i < |b.sent| ==> b.sent[i] < h
  }

  /** Nothing but row `h` has changed, its identity has not, and nothing but it was sent. */
  ghost predicate OnlyRow(b: Books, c: Books, h: nat) {
    && h in b.rows && h in c.rows
    && c.rows[h].trade == b.rows[h].trade && c.rows[h].step == b.rows[h].step && c.rows[h].before == b.rows[h].before
    && c == b.(rows := b.rows[h := c.rows[h]], sent := c.sent)
    && (c.sent == b.sent || c.sent == b.sent + [h])
  }

  /** At most one transaction was added and sent, for `step`. */
  ghost predicate OnlyNew(b: Books, c: Books, step: Step) {
    && (forall h :: h in c.rows && h !in b.rows ==> h == b.nextHash && c.rows[h].step == step)
    && (c.sent == b.sent || c.sent == b.sent + [b.nextHash])
    && c.trades == b.trades && c.nextTrade == b.nextTrade
  }

  lemma OnlyRowStays(net: Network, b0: Books, b1: Books, c: Books, h: nat, t: nat, step: Step, before: int)
    requires Inv(net, b0) && Addable(net, b0, t, step) && h == b0.nextHash
    requires b1 == WithRow(b0, NewRow(t, step, before)) && OnlyRow(b1, c, h)
    ensures h !in b0.rows && Grew(b0, c, t) && OnlyNew(b0, c, step) && LeftOpen(c, h, t)
  {
    FreshRow(net, b0, t, step, before);
  }

  /** The next transaction was sent, and its receipt decides the outcome. */
  ghost predicate SentAndReceived(net: Network, b: Books, c: Books, r: Outcome<nat>) {
    c.sent == b.sent + [b.nextHash] && r == if net(b.nextHash).success then Ok(b.nextHash) else Error(RevertedOnChain)
  }

  /** The next transaction was sent; a reverted one is reported, a successful one measured or left to reconcile. */
  ghost predicate MeasuredOrReverted<T>(net: Network, b: Books, c: Books, r: Outcome<T>) {
    && c.sent == b.sent + [b.nextHash]
    && if net(b.nextHash).success then r.Ok? || (r.Error? && r.failure == Unmeasured(b.nextHash))
       else r.Error? && r.failure == RevertedOnChain
  }

  /** A sale that went smoothly: measured exactly when it succeeded and its balances make sense. */
  ghost predicate SoldOrReverted(net: Network, b: Books, c: Books, r: Outcome<Exit>) {
    && MeasuredOrReverted(net, b, c, r)
    && (Plausible(net(b.nextHash), Sell) ==> r.Ok? == net(b.nextHash).success)
  }

  /** A row just added for `t` is the newest of all, and may be resumed. */
  lemma FreshRow(net: Network, b: Books, t: nat, step: Step, before: int)
    requires Inv(net, b) && Addable(net, b, t, step)
    ensures b.nextHash !in b.rows && Newest(WithRow(b, NewRow(t, step, before)), b.nextHash)
  {
    forall h | h in b.rows ensures h < b.nextHash {
      assert RowOk(b, h);
    }
  }
}
