/** How much to buy: the largest admissible amount under four caps. */
module EntrySizing {
  import opened CursorOrder

  const BPS := 10000

  datatype Limits = Limits(minBuy: nat, maxBuy: nat, liquidityBps: nat, medianBps: nat, walletBps: nat, gasReserve: nat, step: nat) {
    /** What the configuration guarantees. */
    predicate Valid() {
      0 < step <= minBuy <= maxBuy && walletBps <= BPS
    }
  }

  /** `NoObservation`: the median of nothing is an error; `TooSmall`: no entry. */
  datatype Sizing = NoObservation | TooSmall | Amount(wei: nat)

  function Amounts(): nat -> Cursor { (n: nat) => Cursor(n, 0, 0) }

  function Sorted(values: seq<nat>): (r: seq<nat>) {
    Sort(values, Amounts())
  }

  function Median(values: seq<nat>): (m: nat)
    requires values != []
  {
    SortedSize(values);
    var s := Sorted(values);
    var middle := |s| / 2;
    if |s| % 2 == 1 then s[middle] else (s[middle - 1] + s[middle]) / 2
  }

  lemma SortedSize(values: seq<nat>)
    ensures |Sorted(values)| == |values|
  {
    SortOrdered(values, Amounts());
    assert |multiset(Sorted(values))| == |multiset(values)|;
  }

  function Share(value: nat, bps: nat): nat { value * bps / BPS }

  function Least(a: nat, b: nat): nat { if b < a then b else a }

  function Available(balance: nat, reserve: nat): nat { if balance > reserve then balance - reserve else 0 }

  /** The lowest of the four caps. */
  function Cap(liquidity: nat, median: nat, balance: nat, l: Limits): nat {
    Least(Least(Least(l.maxBuy, Share(liquidity, l.liquidityBps)), Share(median, l.medianBps)),
          Share(Available(balance, l.gasReserve), l.walletBps))
  }

  function AmountUnder(cap: nat, l: Limits): Sizing
    requires l.step > 0
  {
    var amount := cap - cap % l.step;
    if amount < l.minBuy then TooSmall else Amount(amount)
  }

  function CalculateEntryAmount(liquidity: nat, observed: seq<nat>, balance: nat, l: Limits): Sizing
    requires l.step > 0
  {
    if observed == [] then NoObservation else AmountUnder(Cap(liquidity, Median(observed), balance, l), l)
  }

  // ------------------------------------------------- the largest under the caps

  /** `wei` respects every cap, stated without rounding. */
  predicate WithinCaps(wei: nat, liquidity: nat, median: nat, balance: nat, l: Limits) {
    && wei <= l.maxBuy
    && wei * BPS <= liquidity * l.liquidityBps
    && wei * BPS <= median * l.medianBps
    && wei * BPS <= Available(balance, l.gasReserve) * l.walletBps
  }

  lemma ShareIsCap(wei: nat, value: nat, bps: nat)
    ensures wei <= Share(value, bps) <==> wei * BPS <= value * bps
  {
  }

  lemma Increasing(p: nat, q: nat, step: nat)
    requires p <= q
    ensures p * step <= q * step
  {
  }

  lemma Multiple(q: nat, step: nat)
    requires step > 0
    ensures q * step % step == 0
  {
    var d, r := q * step / step, q * step % step;
    assert q * step == d * step + r;
    if q > d {
      Increasing(d + 1, q, step);
    } else {
      Increasing(q, d, step);
    }
  }

  /** Rounding down to a multiple of the step gives the largest multiple that is not greater. */
  lemma RoundedDown(cap: nat, step: nat, multiple: nat)
    requires step > 0 && multiple % step == 0
    ensures (cap - cap % step) % step == 0 && cap - cap % step <= cap
    ensures multiple <= cap ==> multiple <= cap - cap % step
  {
    var q, k := cap / step, multiple / step;
    assert cap == q * step + cap % step && multiple == k * step;
    Multiple(q, step);
    if k <= q {
      Increasing(k, q, step);
    } else {
      Increasing(q + 1, k, step);
    }
  }

  lemma CapIsWithinCaps(wei: nat, liquidity: nat, median: nat, balance: nat, l: Limits)
    ensures wei <= Cap(liquidity, median, balance, l) <==> WithinCaps(wei, liquidity, median, balance, l)
  {
    ShareIsCap(wei, liquidity, l.liquidityBps);
    ShareIsCap(wei, median, l.medianBps);
    ShareIsCap(wei, Available(balance, l.gasReserve), l.walletBps);
  }

  lemma LargestUnder(cap: nat, l: Limits, multiple: nat)
    requires l.Valid() && multiple % l.step == 0
    ensures var r := AmountUnder(cap, l);
      && (r.Amount? ==> r.wei % l.step == 0 && r.wei >= l.minBuy && r.wei <= cap)
      && (multiple <= cap ==> if r.Amount? then multiple <= r.wei else multiple < l.minBuy)
  {
    RoundedDown(cap, l.step, multiple);
  }

  /** An amount is given exactly when some multiple of the step between the minimum and the
      caps exists, and then it is the largest one. */
  lemma LargestAdmissible(liquidity: nat, median: nat, balance: nat, l: Limits, multiple: nat)
    requires l.Valid() && multiple % l.step == 0
    ensures var r := AmountUnder(Cap(liquidity, median, balance, l), l);
      && (r.Amount? ==> r.wei % l.step == 0 && r.wei >= l.minBuy && WithinCaps(r.wei, liquidity, median, balance, l))
      && (WithinCaps(multiple, liquidity, median, balance, l) ==>
            if r.Amount? then multiple <= r.wei else multiple < l.minBuy)
  {
    var cap := Cap(liquidity, median, balance, l);
    LargestUnder(cap, l, multiple);
    var r := AmountUnder(cap, l);
    if r.Amount? {
      CapIsWithinCaps(r.wei, liquidity, median, balance, l);
    }
    CapIsWithinCaps(multiple, liquidity, median, balance, l);
  }

  lemma ShareAtMost(value: nat, bps: nat)
    requires bps <= BPS
    ensures Share(value, bps) <= value
  {
    assert value * bps <= value * BPS;
  }

  /** The gas reserve is never touched. */
  lemma ReserveIsKept(liquidity: nat, observed: seq<nat>, balance: nat, l: Limits)
    requires l.Valid() && CalculateEntryAmount(liquidity, observed, balance, l).Amount?
    ensures CalculateEntryAmount(liquidity, observed, balance, l).wei + l.gasReserve <= balance
  {
    ShareAtMost(Available(balance, l.gasReserve), l.walletBps);
    RoundedDown(Cap(liquidity, Median(observed), balance, l), l.step, 0);
  }

  // ---------------------------------------------------- the median of the buys

  lemma OrderedNats(s: seq<nat>, i: nat, k: nat)
    requires Ordered(s, Amounts()) && i <= k < |s|
    ensures s[i] <= s[k]
  {
    if i < k {
      assert !Before(Amounts()(s[k]), Amounts()(s[i]));
    }
  }

  lemma SortedAlike(a: seq<nat>, b: seq<nat>)
    requires multiset(a) == multiset(b)
    ensures Sorted(a) == Sorted(b) && |a| == |b|
  {
    assert |multiset(a)| == |a| && |multiset(b)| == |b|;
    SortOrdered(a, Amounts());
    SortOrdered(b, Amounts());
    OrderedUnique(Sorted(a), Sorted(b), Amounts());
  }

  /** The order in which buys were observed does not matter. */
  lemma OrderDoesNotMatter(liquidity: nat, a: seq<nat>, b: seq<nat>, balance: nat, l: Limits)
    requires multiset(a) == multiset(b) && l.step > 0
    ensures CalculateEntryAmount(liquidity, a, balance, l) == CalculateEntryAmount(liquidity, b, balance, l)
  {
    SortedAlike(a, b);
    if a != [] {
      assert Median(a) == Median(b);
    }
  }

  predicate Pointwise(a: seq<nat>, b: seq<nat>) {
    |a| == |b| && forall i :: 0 <= i < |a| ==> a[i] <= b[i]
  }

  /** Inserting a number: each place gets the middle one of its neighbours and the new number. */
  lemma {:induction false} InsertAt(x: nat, s: seq<nat>, i: nat)
    requires Ordered(s, Amounts()) && i <= |s|
    ensures |Insert(x, s, Amounts())| == |s| + 1
    ensures Insert(x, s, Amounts())[i]
         == if i < |s| && s[i] < x then s[i] else if i > 0 && s[i - 1] > x then s[i - 1] else x
  {
    if s == [] || s[0] >= x {
      if i > 0 && i < |s| {
        OrderedNats(s, 0, i);
      }
      if i > 0 {
        OrderedNats(s, 0, i - 1);
      }
    } else if i > 0 {
      InsertAt(x, s[1..], i - 1);
    } else {
      InsertAt(x, s[1..], 0);
    }
  }

  lemma InsertMonotone(x: nat, y: nat, s: seq<nat>, t: seq<nat>)
    requires x <= y && Pointwise(s, t) && Ordered(s, Amounts()) && Ordered(t, Amounts())
    ensures Pointwise(Insert(x, s, Amounts()), Insert(y, t, Amounts()))
  {
    InsertAt(x, s, 0);
    InsertAt(y, t, 0);
    forall i | 0 <= i <= |s| ensures Insert(x, s, Amounts())[i] <= Insert(y, t, Amounts())[i] {
      InsertAt(x, s, i);
      InsertAt(y, t, i);
    }
  }

  /** Every order statistic rises with the values. */
  lemma {:induction false} SortMonotone(a: seq<nat>, b: seq<nat>)
    requires Pointwise(a, b)
    ensures Pointwise(Sorted(a), Sorted(b))
  {
    if a != [] {
      SortMonotone(a[1..], b[1..]);
      SortOrdered(a[1..], Amounts());
      SortOrdered(b[1..], Amounts());
      InsertMonotone(a[0], b[0], Sorted(a[1..]), Sorted(b[1..]));
    }
  }

  lemma MedianMonotone(a: seq<nat>, b: seq<nat>)
    requires a != [] && Pointwise(a, b)
    ensures Median(a) <= Median(b)
  {
    SortedSize(a);
    SortedSize(b);
    SortMonotone(a, b);
  }

  lemma CapMonotone(liquidity: nat, m: nat, n: nat, balance: nat, l: Limits)
    requires m <= n
    ensures Cap(liquidity, m, balance, l) <= Cap(liquidity, n, balance, l)
  {
    ShareMonotone(m, n, l.medianBps);
  }

  lemma ShareMonotone(m: nat, n: nat, bps: nat)
    requires m <= n
    ensures Share(m, bps) <= Share(n, bps)
  {
    Increasing(m, n, bps);
  }

  /** Larger observed buys never lead to a smaller entry, nor turn an entry into none. */
  lemma NeverFalls(liquidity: nat, a: seq<nat>, b: seq<nat>, balance: nat, l: Limits)
    requires a != [] && Pointwise(a, b) && l.Valid() && CalculateEntryAmount(liquidity, a, balance, l).Amount?
    ensures CalculateEntryAmount(liquidity, b, balance, l).Amount?
    ensures CalculateEntryAmount(liquidity, a, balance, l).wei <= CalculateEntryAmount(liquidity, b, balance, l).wei
  {
    MedianMonotone(a, b);
    CapMonotone(liquidity, Median(a), Median(b), balance, l);
    var cap, more := Cap(liquidity, Median(a), balance, l), Cap(liquidity, Median(b), balance, l);
    RoundedDown(cap, l.step, 0);
    RoundedDown(more, l.step, cap - cap % l.step);
  }
}
