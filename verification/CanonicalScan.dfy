/** Reading a range of headers from a block reader that may answer from another
    fork on every call, and deciding whether the cached journal already covers it. */
module CanonicalScan {
  import opened Blocks
  import opened ChainStore

  /** One answer per height: the scan asks for each height once.  `None` is a failed call. */
  type HeaderSource = nat -> Option<Block>

  datatype Prepared = Prepared(chunk: seq<Block>, journal: seq<Block>, legacy: Option<Block>)

  predicate Anchor(cp: Option<Checkpoint>) {
    cp.Some? && cp.value.hash.Some?
  }

  predicate Legacy(cp: Option<Checkpoint>) {
    cp.Some? && cp.value.hash.None?
  }

  /** The answer at `n` is a header for `n` that contradicts neither the journal nor the checkpoint. */
  predicate Plausible(read: HeaderSource, known: Journal, cp: Option<Checkpoint>, n: nat) {
    && read(n).Some?
    && Number(read(n).value) == n
    && (n in known ==> known[n] == read(n).value)
    && (Anchor(cp) && cp.value.number == n ==> cp.value.hash == read(n))
  }

  predicate LinkedAt(read: HeaderSource, n: nat) {
    n > 0 && read(n - 1).Some? && read(n).Some? && Follows(read(n - 1).value, read(n).value)
  }

  predicate Continues(previous: Option<Block>, next: Option<Block>) {
    previous.Some? && next.Some? ==> Follows(previous.value, next.value)
  }

  /** All the answers of a scan are plausible and each names the one before as its parent. */
  ghost predicate Coherent(read: HeaderSource, known: Journal, cp: Option<Checkpoint>,
                           previous: Option<Block>, start: nat, head: int) {
    && (forall n :: start <= n <= head ==> Plausible(read, known, cp, n))
    && (forall n :: start < n <= head ==> LinkedAt(read, n))
    && (start <= head ==> Continues(previous, read(start)))
  }

  function ScanStart(cp: Option<Checkpoint>, tip: Block, from: nat, head: nat,
                     journalStart: nat, needsJournal: bool): (start: Option<nat>)
  {
    var j := if Number(tip) < journalStart then Number(tip) else journalStart;
    var c := if Legacy(cp) then cp.value.number else from;
    if needsJournal && from <= head then Some(if c < j then c else j)
    else if needsJournal then Some(j)
    else if from <= head then Some(c)
    else None
  }

  function FirstPrevious(cp: Option<Checkpoint>, tip: Block, start: nat): Option<Block> {
    if start == Number(tip) + 1 then Some(tip)
    else if Anchor(cp) && start == cp.value.number + 1 then cp.value.hash
    else None
  }

  /** Answers that pass are one chain: `read(head)` and its ancestry. */
  lemma {:induction false} CoherentIsOneChain(read: HeaderSource, known: Journal, cp: Option<Checkpoint>,
                                              previous: Option<Block>, start: nat, head: nat, n: nat)
    requires Coherent(read, known, cp, previous, start, head) && start <= n <= head
    ensures read(head).Some? && Number(read(head).value) == head
    ensures read(n).Some? && At(read(head).value, n) == read(n).value
    decreases head - n
  {
    assert Plausible(read, known, cp, n) && Plausible(read, known, cp, head);
    if n < head {
      CoherentIsOneChain(read, known, cp, previous, start, head, n + 1);
      assert LinkedAt(read, n + 1);
      AtAt(read(head).value, n + 1, n);
    }
  }

  /** What is appended to a spool that only takes heights from `from` on. */
  function From(scanned: seq<Block>, start: nat, from: nat): seq<Block> {
    if from <= start then scanned else if from - start <= |scanned| then scanned[from - start..] else []
  }

  lemma FromStep(scanned: seq<Block>, start: nat, from: nat, h: Block)
    requires start <= from
    ensures From(scanned + [h], start, from) ==
      if from <= start + |scanned| then From(scanned, start, from) + [h] else From(scanned, start, from)
  {
  }

  ghost predicate Answers(scanned: seq<Block>, read: HeaderSource, start: nat) {
    forall i :: 0 <= i < |scanned| ==> read(start + i) == Some(scanned[i])
  }

  /** One more answer that passes its checks. */
  lemma CoherentStep(read: HeaderSource, known: Journal, cp: Option<Checkpoint>, first: Option<Block>, s: nat, n: nat)
    requires Coherent(read, known, cp, first, s, n - 1) && s <= n && Plausible(read, known, cp, n)
    requires if n == s then Continues(first, read(n)) else LinkedAt(read, n)
    ensures Coherent(read, known, cp, first, s, n)
  {
  }

  /** One answer that fails spoils the whole range. */
  lemma Incoherent(read: HeaderSource, known: Journal, cp: Option<Checkpoint>, first: Option<Block>, s: nat, n: nat, head: nat)
    requires s <= n <= head
    requires !Plausible(read, known, cp, n) || if n == s then !Continues(first, read(n)) else !LinkedAt(read, n)
    ensures !Coherent(read, known, cp, first, s, head)
  {
  }

  function LegacyOf(cp: Option<Checkpoint>, read: HeaderSource, s: nat, n: nat): Option<Block> {
    if Legacy(cp) && s <= cp.value.number < n then read(cp.value.number) else None
  }

  /** What a spool that takes headers from height `from` on holds, if there is one. */
  function Spooled(scanned: seq<Block>, s: nat, from: Option<nat>): seq<Block> {
    if from.Some? then From(scanned, s, from.value) else []
  }

  lemma SpoolStep(scanned: seq<Block>, s: nat, from: Option<nat>, h: Block)
    requires from.Some? ==> s <= from.value
    ensures Spooled(scanned + [h], s, from)
         == if from.Some? && from.value <= s + |scanned| then Spooled(scanned, s, from) + [h] else Spooled(scanned, s, from)
  {
    if from.Some? {
      FromStep(scanned, s, from.value, h);
    }
  }

  lemma AnswersStep(scanned: seq<Block>, read: HeaderSource, s: nat, h: Block)
    requires Answers(scanned, read, s) && read(s + |scanned|) == Some(h)
    ensures Answers(scanned + [h], read, s)
  {
  }

  /** Everything read below height `n` passes; `previous` is the header the next one must follow, if any. */
  ghost predicate Passed(read: HeaderSource, known: Journal, cp: Option<Checkpoint>, first: Option<Block>, s: nat, n: nat, previous: Option<Block>)
    requires s <= n
  {
    && Coherent(read, known, cp, first, s, n - 1)
    && (if n == s then previous == first else previous.Some? && previous == read(n - 1))
  }

  /** The spools hold what they should of the headers read below height `n`. */
  ghost predicate Stored(read: HeaderSource, cp: Option<Checkpoint>, s: nat, n: nat, from: nat, journalFrom: Option<nat>, scanned: seq<Block>, p: Prepared)
    requires s <= n
  {
    && |scanned| == n - s && Answers(scanned, read, s)
    && p == Prepared(Spooled(scanned, s, Some(from)), Spooled(scanned, s, journalFrom), LegacyOf(cp, read, s, n))
  }

  /** What one more header adds to the spools. */
  function AddHeader(p: Prepared, cp: Option<Checkpoint>, from: nat, journalFrom: Option<nat>, n: nat, h: Block): Prepared {
    Prepared(
      if from <= n then p.chunk + [h] else p.chunk,
      if journalFrom.Some? && journalFrom.value <= n then p.journal + [h] else p.journal,
      if Legacy(cp) && n == cp.value.number then Some(h) else p.legacy)
  }

  lemma PassedStep(read: HeaderSource, known: Journal, cp: Option<Checkpoint>, first: Option<Block>, s: nat, n: nat, previous: Option<Block>)
    requires s <= n && Passed(read, known, cp, first, s, n, previous)
    requires Plausible(read, known, cp, n) && (previous.Some? ==> Follows(previous.value, read(n).value))
    ensures Passed(read, known, cp, first, s, n + 1, read(n))
  {
    CoherentStep(read, known, cp, first, s, n);
  }

  lemma PassedStops(read: HeaderSource, known: Journal, cp: Option<Checkpoint>, first: Option<Block>, s: nat, n: nat, head: nat, previous: Option<Block>)
    requires s <= n <= head && Passed(read, known, cp, first, s, n, previous)
    requires !Plausible(read, known, cp, n) || (previous.Some? && !Follows(previous.value, read(n).value))
    ensures !Coherent(read, known, cp, first, s, head)
  {
    Incoherent(read, known, cp, first, s, n, head);
  }

  lemma StoredStep(read: HeaderSource, cp: Option<Checkpoint>, s: nat, n: nat, from: nat, journalFrom: Option<nat>, scanned: seq<Block>, p: Prepared, h: Block)
    requires s <= n && s <= from && (journalFrom.Some? ==> s <= journalFrom.value)
    requires Stored(read, cp, s, n, from, journalFrom, scanned, p) && read(n) == Some(h)
    ensures Stored(read, cp, s, n + 1, from, journalFrom, scanned + [h], AddHeader(p, cp, from, journalFrom, n, h))
  {
    SpoolStep(scanned, s, Some(from), h);
    SpoolStep(scanned, s, journalFrom, h);
    AnswersStep(scanned, read, s, h);
  }

  /** The loop of the scan: every check on every header, in order, appending to the spools. */
  method ScanHeaders(cp: Option<Checkpoint>, known: Journal, first: Option<Block>, s: nat, head: nat,
                     from: nat, journalFrom: Option<nat>, read: HeaderSource)
    returns (ok: bool, p: Prepared, ghost scanned: seq<Block>)
    requires s <= head && s <= from && (journalFrom.Some? ==> s <= journalFrom.value)
    ensures ok <==> Coherent(read, known, cp, first, s, head)
    ensures ok ==> |scanned| == head - s + 1 && Answers(scanned, read, s)
    ensures ok ==> p == Prepared(Spooled(scanned, s, Some(from)), Spooled(scanned, s, journalFrom), LegacyOf(cp, read, s, head + 1))
  {
    p := Prepared([], [], None);
    scanned := [];
    var previous := first;
    for n := s to head + 1
      invariant Passed(read, known, cp, first, s, n, previous)
      invariant Stored(read, cp, s, n, from, journalFrom, scanned, p)
    {
      if !Plausible(read, known, cp, n) || (previous.Some? && !Follows(previous.value, read(n).value)) {
        PassedStops(read, known, cp, first, s, n, head, previous);
        return false, p, scanned;
      }
      PassedStep(read, known, cp, first, s, n, previous);
      var header := read(n).value;
      StoredStep(read, cp, s, n, from, journalFrom, scanned, p, header);
      p := AddHeader(p, cp, from, journalFrom, n, header);
      scanned := scanned + [header];
      previous := Some(header);
    }
    ok := true;
  }

  lemma ScannedSuffix(read: HeaderSource, known: Journal, cp: Option<Checkpoint>, first: Option<Block>,
                      s: nat, head: nat, scanned: seq<Block>, from: nat)
    requires s <= head && s <= from && |scanned| == head - s + 1
    requires Coherent(read, known, cp, first, s, head) && Answers(scanned, read, s)
    ensures read(head).Some? && Number(read(head).value) == head
    ensures IsSegment(From(scanned, s, from), read(head).value, from, head)
  {
    CoherentIsOneChain(read, known, cp, first, s, head, head);
    var suffix := From(scanned, s, from);
    forall i {:trigger suffix[i]} | 0 <= i < |suffix| ensures suffix[i] == At(read(head).value, from + i) {
      assert suffix[i] == scanned[from - s + i];
      CoherentIsOneChain(read, known, cp, first, s, head, from + i);
    }
  }

  /** The whole scan.  It fails exactly when some answer fails a check; when it
      passes, the two spools hold the ancestry of the header read at `head`. */
  method PrepareCanonicalScan(cp: Option<Checkpoint>, tip: Block, known: Journal, from: nat, head: nat,
                              journalStart: nat, needsJournal: bool, read: HeaderSource)
    returns (r: Option<Prepared>)
    requires journalStart <= head
    requires Legacy(cp) ==> cp.value.number <= head && cp.value.number < from
    ensures ScanStart(cp, tip, from, head, journalStart, needsJournal).None? ==> r == Some(Prepared([], [], None))
    ensures var start := ScanStart(cp, tip, from, head, journalStart, needsJournal);
      start.Some? ==>
        && start.value <= head
        && (r.Some? <==> Coherent(read, known, cp, FirstPrevious(cp, tip, start.value), start.value, head))
        && (r.Some? ==> IsPrepared(r.value, read, cp, start.value, from, head, journalStart, needsJournal))
  {
    var start := ScanStart(cp, tip, from, head, journalStart, needsJournal);
    if start.None? {
      return Some(Prepared([], [], None));
    }
    var s := start.value;
    var first := FirstPrevious(cp, tip, s);
    var ok, p, scanned := ScanHeaders(cp, known, first, s, head, from, if needsJournal then Some(journalStart) else None, read);
    if !ok {
      return None;
    }
    ScannedSuffix(read, known, cp, first, s, head, scanned, from);
    if needsJournal {
      ScannedSuffix(read, known, cp, first, s, head, scanned, journalStart);
    }
    if Legacy(cp) && s <= cp.value.number {
      CoherentIsOneChain(read, known, cp, first, s, head, cp.value.number);
    }
    r := Some(p);
  }

  ghost predicate IsPrepared(p: Prepared, read: HeaderSource, cp: Option<Checkpoint>, s: nat, from: nat, head: nat,
                             journalStart: nat, needsJournal: bool)
  {
    && read(head).Some? && Number(read(head).value) == head
    && IsSegment(p.chunk, read(head).value, from, head)
    && (if needsJournal then IsSegment(p.journal, read(head).value, journalStart, head) else p.journal == [])
    && p.legacy == (if Legacy(cp) && s <= cp.value.number <= head
                    then Some(At(read(head).value, cp.value.number)) else None)
  }

  /** When the scan reaches down to the stored tip or to an anchored checkpoint,
      what was read extends that block: a pass never continues from another fork. */
  lemma ScanExtends(cp: Option<Checkpoint>, tip: Block, known: Journal, from: nat, head: nat,
                    journalStart: nat, needsJournal: bool, read: HeaderSource, s: nat)
    requires ScanStart(cp, tip, from, head, journalStart, needsJournal) == Some(s)
    requires Number(tip) <= head && (needsJournal || Number(tip) == head)
    requires Number(tip) in known && known[Number(tip)] == tip
    requires Coherent(read, known, cp, FirstPrevious(cp, tip, s), s, head)
    requires s <= head
    ensures read(head).Some? && Number(read(head).value) == head && OnChain(read(head).value, tip)
    ensures Anchor(cp) && Number(cp.value.hash.value) == cp.value.number && from == cp.value.number + 1 && from <= head
      ==> OnChain(read(head).value, cp.value.hash.value)
  {
    var top := read(head).value;
    assert Plausible(read, known, cp, head);
    assert Plausible(read, known, cp, Number(tip));
    CoherentIsOneChain(read, known, cp, FirstPrevious(cp, tip, s), s, head, Number(tip));
    if Anchor(cp) && Number(cp.value.hash.value) == cp.value.number && from == cp.value.number + 1 && from <= head {
      if s <= cp.value.number {
        assert Plausible(read, known, cp, cp.value.number);
        CoherentIsOneChain(read, known, cp, FirstPrevious(cp, tip, s), s, head, cp.value.number);
      } else {
        CoherentIsOneChain(read, known, cp, FirstPrevious(cp, tip, s), s, head, s);
        AtFollows(top, cp.value.number);
      }
    }
  }

  predicate KnownLinked(known: Journal, n: nat) {
    n > 0 && n - 1 in known && n in known && Follows(known[n - 1], known[n])
  }

  predicate Broken(known: Journal, n: nat) {
    n > 0 && n - 1 in known && n in known && !Follows(known[n - 1], known[n])
  }

  ghost predicate Cached(known: Journal, start: nat, end: int) {
    (forall n :: start <= n <= end ==> n in known) && (forall n :: start < n <= end ==> KnownLinked(known, n))
  }

  /** An unlinked pair of cached headers before the first height that is missing. */
  ghost predicate BreaksAt(known: Journal, start: nat, n: nat) {
    start < n && Cached(known, start, n - 1) && Broken(known, n)
  }

  /** True when every height from `start` to `head` is cached and the window is
      at most the retention wide; an error exactly when an unlinked pair of cached
      headers comes before the first missing height. */
  method HasContinuousCachedJournal(known: Journal, start: nat, head: nat) returns (r: Option<bool>)
    requires start <= head
    ensures r == Some(true) <==> head - start + 1 <= RETENTION && Cached(known, start, head)
    ensures r.None? <==> head - start + 1 <= RETENTION && exists n: nat :: n <= head && BreaksAt(known, start, n)
  {
    if head - start + 1 > RETENTION {
      return Some(false);
    }
    var previous: Option<Block> := None;
    for n := start to head + 1
      invariant Cached(known, start, n - 1)
      invariant n > start ==> previous == Some(known[n - 1])
      invariant n == start ==> previous.None?
    {
      if n !in known {
        forall m: nat | m <= head ensures !BreaksAt(known, start, m) {
          assert start < m < n ==> KnownLinked(known, m);
        }
        return Some(false);
      }
      if previous.Some? && !Follows(previous.value, known[n]) {
        assert !KnownLinked(known, n) && BreaksAt(known, start, n);
        return None;
      }
      assert n > start ==> KnownLinked(known, n);
      previous := Some(known[n]);
    }
    forall m: nat | m <= head ensures !BreaksAt(known, start, m) {
      assert start < m ==> KnownLinked(known, m);
    }
    r := Some(true);
  }

  /** The journal after the first `k` batches of a persist. */
  function AfterBatches(j: Journal, s: seq<Block>, k: nat): Journal {
    Upsert(j, s[..if k * RETENTION <= |s| then k * RETENTION else |s|])
  }

  lemma UpsertConcat(j: Journal, a: seq<Block>, b: seq<Block>)
    ensures Upsert(Upsert(j, a), b) == Upsert(j, a + b)
    decreases |b|
  {
    if b == [] {
      assert a + b == a;
    } else {
      assert (a + b)[..|a + b| - 1] == a + b[..|b| - 1];
      UpsertConcat(j, a, b[..|b| - 1]);
    }
  }

  /** Batches of `RETENTION` rows, each one statement; `saveOk(k)` says whether
      the k-th statement succeeds.  A failure leaves exactly the batches before it. */
  method PersistJournal(store: CanonicalStore, headers: seq<Block>, saveOk: nat -> bool)
    returns (batches: nat, ok: bool)
    modifies store`journal
    ensures store.journal == AfterBatches(old(store.journal), headers, batches)
    ensures forall i :: 0 <= i < batches ==> saveOk(i)
    ensures ok ==> batches * RETENTION >= |headers|
    ensures !ok ==> batches * RETENTION < |headers| && !saveOk(batches)
  {
    batches := 0;
    var from := 0;
    assert headers[..0] == [];
    while from < |headers|
      invariant from == if batches * RETENTION <= |headers| then batches * RETENTION else |headers|
      invariant store.journal == Upsert(old(store.journal), headers[..from])
      invariant forall i :: 0 <= i < batches ==> saveOk(i)
    {
      var to := if from + RETENTION <= |headers| then from + RETENTION else |headers|;
      if !saveOk(batches) {
        return batches, false;
      }
      store.SaveCanonicalBlocks(headers[from..to]);
      UpsertConcat(old(store.journal), headers[..from], headers[from..to]);
      assert headers[..from] + headers[from..to] == headers[..to];
      from := to;
      batches := batches + 1;
    }
    ok := true;
  }
}
