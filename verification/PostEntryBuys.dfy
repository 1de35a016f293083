/** Buys by others after our entry: counted one event at a time by the engine, recounted
    from the event table after a re-organisation. */
module PostEntryBuys {
  import opened Blocks
  import opened CursorOrder

  datatype SwapEvent = SwapEvent(cursor: Cursor, hash: nat, logIndex: nat, isBuy: bool)

  datatype Entry = Entry(cursor: Cursor, hash: Option<nat>)

  datatype Status = WaitingFirstBuy | Holding | Other

  function CursorOf(): SwapEvent -> Cursor { (e: SwapEvent) => e.cursor }

  /** A buy by somebody else after our entry. */
  predicate Qualifies(entry: Entry, e: SwapEvent) {
    e.isBuy && Compare(e.cursor, entry.cursor) > 0 && Some(e.hash) != entry.hash
  }

  /** The engine's list after one more event. */
  function CountOne(entry: Entry, counted: seq<nat>, e: SwapEvent): seq<nat> {
    if Qualifies(entry, e) && e.hash !in counted then counted + [e.hash] else counted
  }

  function CountAll(entry: Entry, counted: seq<nat>, events: seq<SwapEvent>): seq<nat> {
    if events == [] then counted else
      var n := |events| - 1;
      CountOne(entry, CountAll(entry, counted, events[..n]), events[n])
  }

  class TokenSession {
    var status: Status
    var entry: Option<Entry>
    var counted: seq<nat>
    var count: nat
    var firstBuy: Option<SwapEvent>
    var observed: seq<SwapEvent>

    constructor (entry: Entry)
      ensures status == Holding && this.entry == Some(entry) && counted == [] && Valid()
    {
      status, this.entry, counted, count, firstBuy, observed := Holding, Some(entry), [], 0, None, [];
    }

    predicate Valid()
      reads this
    {
      count == |counted|
    }

    /** The engine's part in one event while the position is held. */
    method OnEvent(e: SwapEvent)
      requires Valid() && status.Holding? && entry.Some?
      modifies this`counted, this`count
      ensures Valid() && counted == CountOne(entry.value, old(counted), e)
    {
      if !e.isBuy || Compare(e.cursor, entry.value.cursor) <= 0 || entry.value.hash == Some(e.hash) || e.hash in counted {
        return;
      }
      counted, count := counted + [e.hash], count + 1;
    }

    /** Events handed to the engine one after the other. */
    method OnEvents(events: seq<SwapEvent>)
      requires Valid() && status.Holding? && entry.Some?
      modifies this`counted, this`count
      ensures Valid() && counted == CountAll(entry.value, old(counted), events)
    {
      ghost var before := counted;
      assert events[..0] == [];
      for i := 0 to |events|
        invariant Valid() && counted == CountAll(entry.value, before, events[..i])
      {
        assert events[..i + 1][..i] == events[..i];
        OnEvent(events[i]);
      }
      assert events[..|events|] == events;
    }

    /** Recount from scratch, whatever order the events come in. */
    method RebuildPostEntryBuys(events: seq<SwapEvent>)
      modifies this`counted, this`count
      ensures Valid()
      ensures counted == if entry.None? then [] else CountAll(entry.value, [], Sort(events, CursorOf()))
    {
      if entry.None? {
        counted, count := [], 0;
        return;
      }
      var hashes: seq<nat>, seen: set<nat> := [], {};
      var ordered := Sort(events, CursorOf());
      assert ordered[..0] == [];
      for i := 0 to |ordered|
        invariant hashes == CountAll(entry.value, [], ordered[..i])
        invariant seen == set h | h in hashes
      {
        assert ordered[..i + 1][..i] == ordered[..i];
        var e := ordered[i];
        if !e.isBuy || Compare(e.cursor, entry.value.cursor) <= 0 || entry.value.hash == Some(e.hash) || e.hash in seen {
          continue;
        }
        seen, hashes := seen + {e.hash}, hashes + [e.hash];
      }
      assert ordered[..|ordered|] == ordered;
      counted, count := hashes, |hashes|;
    }

    /** What was observed before the entry survives a rollback exactly when its event is
        still canonical and the session is past its first buy. */
    method RestoreObservations(canonical: seq<SwapEvent>)
      modifies this`observed, this`firstBuy
      ensures observed == Kept(status, old(observed), canonical)
      ensures forall e :: e in observed <==> e in old(observed) && !status.WaitingFirstBuy? && IsCanonical(e, canonical)
      ensures firstBuy == if old(firstBuy).Some? && !status.WaitingFirstBuy? && IsCanonical(old(firstBuy).value, canonical)
                          then old(firstBuy) else None
    {
      forall e ensures e in Kept(status, observed, canonical) <==> e in observed && !status.WaitingFirstBuy? && IsCanonical(e, canonical) {
        KeptIff(status, observed, canonical, e);
      }
      if firstBuy.Some? && !IsCanonical(firstBuy.value, canonical) {
        firstBuy := None;
      }
      observed := Filter(observed, StillCanonical(canonical));
      if status.WaitingFirstBuy? {
        firstBuy, observed := None, [];
      }
    }

    /** A snapshot becomes the session again: observations first, then the recount. */
    method RestoreSnapshot(canonical: seq<SwapEvent>)
      modifies this`observed, this`firstBuy, this`counted, this`count
      ensures Valid() && observed == Kept(status, old(observed), canonical)
      ensures counted == if entry.None? then [] else CountAll(entry.value, [], Sort(canonical, CursorOf()))
    {
      RestoreObservations(canonical);
      RebuildPostEntryBuys(canonical);
    }
  }

  /** Some canonical event has the same transaction and log index. */
  predicate IsCanonical(e: SwapEvent, canonical: seq<SwapEvent>) {
    exists c :: c in canonical && c.hash == e.hash && c.logIndex == e.logIndex
  }

  function StillCanonical(canonical: seq<SwapEvent>): SwapEvent -> bool {
    (e: SwapEvent) => IsCanonical(e, canonical)
  }

  /** What a session keeps of its observed buys, in their order. */
  function Kept(status: Status, observed: seq<SwapEvent>, canonical: seq<SwapEvent>): seq<SwapEvent> {
    if status.WaitingFirstBuy? then [] else Filter(observed, StillCanonical(canonical))
  }

  lemma KeptIff(status: Status, observed: seq<SwapEvent>, canonical: seq<SwapEvent>, e: SwapEvent)
    ensures e in Kept(status, observed, canonical) <==> e in observed && !status.WaitingFirstBuy? && IsCanonical(e, canonical)
  {
    FilterMember(observed, StillCanonical(canonical), e);
  }

  ghost predicate NothingCanonicalLost(status: Status, observed: seq<SwapEvent>, canonical: seq<SwapEvent>) {
    forall e :: e in observed && IsCanonical(e, canonical) ==> e in Kept(status, observed, canonical)
  }

  /** A rollback loses no observation that is still canonical if and only if the session is
      past its first buy, or nothing it observed is canonical any more. */
  lemma ObservationsKeptIff(status: Status, observed: seq<SwapEvent>, canonical: seq<SwapEvent>)
    ensures NothingCanonicalLost(status, observed, canonical)
      <==> !status.WaitingFirstBuy? || forall e :: e in observed ==> !IsCanonical(e, canonical)
  {
    forall e ensures e in Kept(status, observed, canonical) <==> e in observed && !status.WaitingFirstBuy? && IsCanonical(e, canonical) {
      KeptIff(status, observed, canonical, e);
    }
  }

  /** For instance: a session that waits for its first buy and has observed the one buy that is canonical loses it. */
  lemma OneObservationLost(e: SwapEvent)
    ensures Kept(WaitingFirstBuy, [e], [e]) == [] && !NothingCanonicalLost(WaitingFirstBuy, [e], [e])
  {
    assert e in [e] && IsCanonical(e, [e]);
  }

  /** What the list is: each hash with a qualifying event, once, in the order of first events. */
  lemma {:induction false} CountedMeaning(entry: Entry, events: seq<SwapEvent>, h: nat)
    ensures h in CountAll(entry, [], events) <==> exists i :: 0 <= i < |events| && events[i].hash == h && Qualifies(entry, events[i])
    ensures forall i, k :: 0 <= i < k < |CountAll(entry, [], events)| ==> CountAll(entry, [], events)[i] != CountAll(entry, [], events)[k]
  {
    if events != [] {
      var n := |events| - 1;
      CountedMeaning(entry, events[..n], h);
      forall i | 0 <= i < n ensures events[..n][i] == events[i] {
      }
    }
  }

  lemma {:induction false} CountConcat(entry: Entry, counted: seq<nat>, a: seq<SwapEvent>, b: seq<SwapEvent>)
    ensures CountAll(entry, counted, a + b) == CountAll(entry, CountAll(entry, counted, a), b)
  {
    if b == [] {
      assert a + b == a;
    } else {
      var n := |b| - 1;
      assert (a + b)[..|a + b| - 1] == a + b[..n];
      CountConcat(entry, counted, a, b[..n]);
    }
  }

  /** Incremental equals recomputed: a recount over the events in any order is what the engine
      counted event by event. */
  lemma RecountIsCount(entry: Entry, events: seq<SwapEvent>, shuffled: seq<SwapEvent>)
    requires Ordered(events, CursorOf()) && Faithful(events, CursorOf()) && multiset(shuffled) == multiset(events)
    ensures CountAll(entry, [], Sort(shuffled, CursorOf())) == CountAll(entry, [], events)
  {
    SortOrdered(shuffled, CursorOf());
    OrderedUnique(events, Sort(shuffled, CursorOf()), CursorOf());
  }

  function UpTo(n: nat): SwapEvent -> bool { (e: SwapEvent) => e.cursor.block <= n }

  lemma EarlierBelow(events: seq<SwapEvent>, m: nat, n: nat)
    requires Ordered(events, CursorOf()) && m < |events| && events[m].cursor.block <= n
    ensures forall i :: 0 <= i <= m ==> events[i].cursor.block <= n
  {
    forall i | 0 <= i < m ensures events[i].cursor.block <= n {
      assert !Before(CursorOf()(events[m]), CursorOf()(events[i]));
    }
  }

  lemma {:induction false} FilterAll(events: seq<SwapEvent>, p: SwapEvent -> bool)
    requires forall i :: 0 <= i < |events| ==> p(events[i])
    ensures Filter(events, p) == events
  {
    if events != [] {
      FilterAll(events[..|events| - 1], p);
    }
  }

  /** What survives a rewind is a prefix of what the engine has seen. */
  lemma {:induction false} SurvivorsArePrefix(events: seq<SwapEvent>, n: nat) returns (k: nat)
    requires Ordered(events, CursorOf())
    ensures k <= |events| && Filter(events, UpTo(n)) == events[..k]
    ensures forall i :: 0 <= i < |events| ==> (i < k <==> events[i].cursor.block <= n)
  {
    if events == [] {
      k := 0;
    } else {
      var m := |events| - 1;
      if events[m].cursor.block <= n {
        EarlierBelow(events, m, n);
        FilterAll(events, UpTo(n));
        k := |events|;
        assert events[..k] == events;
      } else {
        k := SurvivorsArePrefix(events[..m], n);
        assert events[..m][..k] == events[..k];
      }
    }
  }

  /** A rewind to block `n` followed by a recount over the surviving events restores the list
      exactly as it was before the first orphaned event, and replaying another fork's events
      then gives what an engine that only ever saw that fork would have. */
  lemma RewindAndReplay(entry: Entry, events: seq<SwapEvent>, n: nat, survivors: seq<SwapEvent>, fork: seq<SwapEvent>) returns (k: nat)
    requires Ordered(events, CursorOf()) && Faithful(events, CursorOf())
    requires multiset(survivors) == multiset(Filter(events, UpTo(n)))
    ensures k <= |events| && forall i :: 0 <= i < |events| ==> (i < k <==> events[i].cursor.block <= n)
    ensures CountAll(entry, [], Sort(survivors, CursorOf())) == CountAll(entry, [], events[..k])
    ensures CountAll(entry, CountAll(entry, [], Sort(survivors, CursorOf())), fork) == CountAll(entry, [], events[..k] + fork)
  {
    k := SurvivorsArePrefix(events, n);
    RecountIsCount(entry, events[..k], survivors);
    CountConcat(entry, [], events[..k], fork);
  }
}
