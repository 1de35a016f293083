/** Batched swap ingestion: one shared scan delivers to each pair exactly what a
    scan of its own would. */
module SwapBatch {
  import opened Blocks
  import opened ChainStore
  import opened CanonicalPass
  import opened ChunkLoop
  import opened CursorOrder

  /** A log as the provider returns it. */
  datatype RawLog = RawLog(address: string, number: nat, hash: Block, txHash: nat, txIndex: nat, logIndex: nat, args: int)

  /** One element of a provider's answer. */
  datatype Raw = Malformed | Wellformed(log: RawLog)

  function KeyOf(l: RawLog): Cursor { Cursor(l.number, l.txIndex, l.logIndex) }

  function Key(): RawLog -> Cursor { (l: RawLog) => KeyOf(l) }

  /** The identity under which a log is recognised when it is returned twice. */
  function Identity(l: RawLog): (nat, nat) { (l.txHash, l.logIndex) }

  /** Every check on one element of an answer. */
  predicate Acceptable(raw: Raw, from: nat, to: nat, expected: map<nat, Block>, addresses: set<string>) {
    && raw.Wellformed?
    && raw.log.address in addresses
    && from <= raw.log.number <= to
    && raw.log.number in expected && expected[raw.log.number] == raw.log.hash
  }

  /** The distinct logs of an answer, in order of first appearance. */
  function Distinct(raws: seq<Raw>): seq<RawLog>
    requires forall i :: 0 <= i < |raws| ==> raws[i].Wellformed?
  {
    if raws == [] then [] else
      var d := Distinct(raws[..|raws| - 1]);
      var l := raws[|raws| - 1].log;
      if l in d then d else d + [l]
  }

  /** The same identity always comes with the same content. */
  ghost predicate Agreeing(raws: seq<Raw>)
    requires forall i :: 0 <= i < |raws| ==> raws[i].Wellformed?
  {
    forall i, k :: 0 <= i < |raws| && 0 <= k < |raws| && Identity(raws[i].log) == Identity(raws[k].log)
      ==> raws[i].log == raws[k].log
  }

  lemma {:induction false} DistinctFacts(raws: seq<Raw>)
    requires forall i :: 0 <= i < |raws| ==> raws[i].Wellformed?
    ensures forall l :: l in Distinct(raws) <==> Wellformed(l) in raws
    ensures forall i, k :: 0 <= i < k < |Distinct(raws)| ==> Distinct(raws)[i] != Distinct(raws)[k]
  {
    if raws != [] {
      var n := |raws| - 1;
      DistinctFacts(raws[..n]);
      assert raws == raws[..n] + [raws[n]];
      assert raws[n] == Wellformed(raws[n].log);
    }
  }

  /** `seen` holds the content recorded for each identity among the first `i` elements. */
  ghost predicate Recorded(seen: map<(nat, nat), RawLog>, raws: seq<Raw>, i: nat)
    requires i <= |raws| && forall k :: 0 <= k < i ==> raws[k].Wellformed?
  {
    && (forall k :: 0 <= k < i ==> Identity(raws[k].log) in seen && seen[Identity(raws[k].log)] == raws[k].log)
    && forall id :: id in seen ==> Identity(seen[id]) == id && exists k :: 0 <= k < i && raws[k] == Wellformed(seen[id])
  }

  lemma RecordedFresh(seen: map<(nat, nat), RawLog>, raws: seq<Raw>, i: nat)
    requires i < |raws| && (forall k :: 0 <= k <= i ==> raws[k].Wellformed?) && Recorded(seen, raws, i)
    requires Identity(raws[i].log) !in seen
    ensures raws[i].log !in Distinct(raws[..i])
    ensures Recorded(seen[Identity(raws[i].log) := raws[i].log], raws, i + 1)
  {
    DistinctFacts(raws[..i]);
    forall id | id in seen ensures exists k :: 0 <= k < i + 1 && raws[k] == Wellformed(seen[id]) {
      var k :| 0 <= k < i && raws[k] == Wellformed(seen[id]);
      assert raws[k] == Wellformed(seen[id]);
    }
    assert raws[i] == Wellformed(raws[i].log);
  }

  lemma RecordedAgain(seen: map<(nat, nat), RawLog>, raws: seq<Raw>, i: nat)
    requires i < |raws| && (forall k :: 0 <= k <= i ==> raws[k].Wellformed?) && Recorded(seen, raws, i)
    requires Identity(raws[i].log) in seen && seen[Identity(raws[i].log)] == raws[i].log
    ensures raws[i].log in Distinct(raws[..i])
    ensures Recorded(seen, raws, i + 1)
  {
    DistinctFacts(raws[..i]);
    var id := Identity(raws[i].log);
    var k :| 0 <= k < i && raws[k] == Wellformed(seen[id]);
    assert raws[..i][k] == Wellformed(raws[i].log);
    forall id | id in seen ensures exists k :: 0 <= k < i + 1 && raws[k] == Wellformed(seen[id]) {
      var k :| 0 <= k < i && raws[k] == Wellformed(seen[id]);
      assert raws[k] == Wellformed(seen[id]);
    }
  }

  lemma DistinctStep(raws: seq<Raw>, i: nat)
    requires i < |raws| && forall k :: 0 <= k <= i ==> raws[k].Wellformed?
    ensures Distinct(raws[..i + 1]) == Distinct(raws[..i]) + if raws[i].log in Distinct(raws[..i]) then [] else [raws[i].log]
  {
    assert raws[..i + 1][..i] == raws[..i];
  }

  /** Identify and merge the answers of all the address batches.  It fails exactly when
      some element fails a check or an identity comes with two contents. */
  method IdentifyAll(raws: seq<Raw>, from: nat, to: nat, expected: map<nat, Block>, addresses: set<string>)
    returns (r: Option<seq<RawLog>>)
    ensures r.Some? <==> (forall i :: 0 <= i < |raws| ==> Acceptable(raws[i], from, to, expected, addresses)) && Agreeing(raws)
    ensures r.Some? ==> r.value == Distinct(raws)
  {
    var seen: map<(nat, nat), RawLog> := map[];
    var identified := [];
    for i := 0 to |raws|
      invariant forall k :: 0 <= k < i ==> Acceptable(raws[k], from, to, expected, addresses)
      invariant Recorded(seen, raws, i)
      invariant identified == Distinct(raws[..i])
    {
      var raw := raws[i];
      if !Acceptable(raw, from, to, expected, addresses) {
        return None;
      }
      DistinctStep(raws, i);
      var id := Identity(raw.log);
      if id in seen {
        if seen[id] != raw.log {
          ghost var k :| 0 <= k < i && raws[k] == Wellformed(seen[id]);
          assert Identity(raws[k].log) == Identity(raws[i].log);
          return None;
        }
        RecordedAgain(seen, raws, i);
      } else {
        RecordedFresh(seen, raws, i);
        seen := seen[id := raw.log];
        identified := identified + [raw.log];
      }
    }
    assert raws[..|raws|] == raws;
    r := Some(identified);
  }

  // ---------------------------------------------------------------- chunks

  datatype Entry = Entry(key: string, address: string, checkpoint: Option<Checkpoint>, nextBlock: nat)

  datatype Expiry = Alive | HasExpired | ExpiryFails

  /** The provider: what it answers when asked for the Swap logs of some addresses. */
  type Reader = seq<string> -> Option<seq<Raw>>

  /** What the outside answers while one chunk is processed.  `active(r, a)`: is pair `a`
      still monitored at check number `r`; `accept(i)`: the listener's answer to the
      i-th delivered log, `None` when it throws. */
  datatype Env = Env(
    active: (nat, string) -> bool,
    expiry: string -> Expiry,
    read: Reader,
    accept: nat -> Option<bool>,
    writeOk: bool)

  datatype Result = Done | Expired | Threw

  function Concerned(entries: seq<Entry>, to: nat): seq<Entry> {
    Filter(entries, (e: Entry) => e.nextBlock <= to)
  }

  function Keys(entries: seq<Entry>): set<string> {
    set e | e in entries :: e.key
  }

  function Addresses(entries: seq<Entry>): set<string> {
    set e | e in entries :: e.address
  }

  function AddressList(entries: seq<Entry>): (r: seq<string>)
    ensures |r| == |entries| && forall i :: 0 <= i < |r| ==> r[i] == entries[i].address
  {
    seq(|entries|, i requires 0 <= i < |entries| => entries[i].address)
  }

  function Expected(headers: seq<Block>): map<nat, Block> {
    if headers == [] then map[] else
      Expected(headers[..|headers| - 1])[Number(headers[|headers| - 1]) := headers[|headers| - 1]]
  }

  /** Is this log new for the pair it belongs to? */
  predicate Wanted(entries: seq<Entry>, l: RawLog) {
    exists e :: e in entries && e.address == l.address && e.nextBlock <= l.number
  }

  /** What a chunk delivers: the distinct logs read, in cursor order, each to its own pair,
      without those the pair already has. */
  function Stream(entries: seq<Entry>, raws: seq<Raw>): seq<RawLog>
    requires forall i :: 0 <= i < |raws| ==> raws[i].Wellformed?
  {
    Filter(Sort(Distinct(raws), Key()), (l: RawLog) => Wanted(entries, l))
  }

  function Advanced(entries: seq<Entry>, to: nat): (r: seq<Entry>)
    ensures |r| == |entries|
    ensures forall i :: 0 <= i < |r| ==>
      r[i] == if entries[i].nextBlock <= to then entries[i].(nextBlock := to + 1) else entries[i]
  {
    if entries == [] then [] else
      var e := entries[0];
      [if e.nextBlock <= to then e.(nextBlock := to + 1) else e] + Advanced(entries[1..], to)
  }

  ghost predicate DistinctEntries(entries: seq<Entry>) {
    forall i, k :: 0 <= i < k < |entries| ==> entries[i].address != entries[k].address && entries[i].key != entries[k].key
  }

  /** Consecutive groups of at most `size` addresses. */
  method Partition(values: seq<string>, size: nat) returns (batches: seq<seq<string>>)
    requires size >= 1
    ensures Flatten(batches) == values
    ensures forall i :: 0 <= i < |batches| ==> 1 <= |batches[i]| <= size
  {
    batches := [];
    var index := 0;
    assert values[..0] == [];
    while index < |values|
      invariant index <= |values|
      invariant Flatten(batches) == values[..index]
      invariant forall i :: 0 <= i < |batches| ==> 1 <= |batches[i]| <= size
    {
      var end := if index + size < |values| then index + size else |values|;
      assert values[..end] == values[..index] + values[index..end];
      assert (batches + [values[index..end]])[..|batches|] == batches;
      batches := batches + [values[index..end]];
      index := end;
    }
    assert values[..|values|] == values;
  }

  function Flatten<T>(ss: seq<seq<T>>): seq<T> {
    if ss == [] then [] else Flatten(ss[..|ss| - 1]) + ss[|ss| - 1]
  }

  /** The answers to the first `n` batches, one after the other. */
  function Answers(batches: seq<seq<string>>, n: nat, read: Reader): seq<Raw>
    requires n <= |batches|
  {
    if n == 0 then [] else
      Answers(batches, n - 1, read) + (if read(batches[n - 1]).Some? then read(batches[n - 1]).value else [])
  }

  predicate AllAnswered(batches: seq<seq<string>>, read: Reader) {
    forall i :: 0 <= i < |batches| ==> read(batches[i]).Some?
  }

  /** All the answers together, or nothing if one read failed. */
  method ReadAll(batches: seq<seq<string>>, read: Reader) returns (r: Option<seq<Raw>>)
    ensures r.Some? <==> AllAnswered(batches, read)
    ensures r.Some? ==> r.value == Answers(batches, |batches|, read)
  {
    var raws := [];
    for i := 0 to |batches|
      invariant forall k :: 0 <= k < i ==> read(batches[k]).Some?
      invariant raws == Answers(batches, i, read)
    {
      if read(batches[i]).None? {
        return None;
      }
      raws := raws + read(batches[i]).value;
    }
    r := Some(raws);
  }

  /** Every pair stays active and unexpired, every read and write succeeds, every log is accepted. */
  ghost predicate Smooth(env: Env) {
    && (forall r: nat, a: string :: env.active(r, a))
    && (forall a: string :: env.expiry(a).Alive?)
    && (forall addresses: seq<string> :: env.read(addresses).Some?)
    && (forall k: nat :: env.accept(k) == Some(true))
    && env.writeOk
  }

  /** Every element of the answers passes its checks, and no identity has two contents. */
  ghost predicate AllAcceptable(raws: seq<Raw>, entries: seq<Entry>, chunk: Chunk) {
    && (forall i :: 0 <= i < |raws| ==> Acceptable(raws[i], chunk.from, chunk.to, Expected(chunk.headers), Addresses(entries)))
    && Agreeing(raws)
  }

  /** `raws` is what the provider answered when asked for all the addresses concerned, batch by batch. */
  ghost predicate ReadFor(raws: seq<Raw>, concerned: seq<Entry>, read: Reader) {
    exists batches :: Flatten(batches) == AddressList(concerned) && AllAnswered(batches, read) && raws == Answers(batches, |batches|, read)
  }

  predicate AllActive(entries: seq<Entry>, round: nat, env: Env) {
    forall e :: e in entries ==> env.active(round, e.address)
  }

  function WantedBy(entries: seq<Entry>): RawLog -> bool { (l: RawLog) => Wanted(entries, l) }

  /** Hand the logs out one by one.  `delivered` is a prefix of the stream, all of it when `ok`. */
  method DeliverLogs(entries: seq<Entry>, logs: seq<RawLog>, env: Env) returns (ok: bool, delivered: seq<RawLog>)
    ensures delivered <= Filter(logs, WantedBy(entries))
    ensures ok ==> delivered == Filter(logs, WantedBy(entries)) && forall k :: 0 <= k < |delivered| ==> env.accept(k) == Some(true)
    ensures Smooth(env) ==> ok
  {
    delivered := [];
    assert logs[..0] == [];
    for i := 0 to |logs|
      invariant delivered == Filter(logs[..i], WantedBy(entries))
      invariant forall k :: 0 <= k < |delivered| ==> env.accept(k) == Some(true)
    {
      var l := logs[i];
      assert logs[..i + 1][..i] == logs[..i];
      FilterPrefix(logs, i, WantedBy(entries));
      if Wanted(entries, l) {
        var k := |delivered|;
        if !env.active(2 + k, l.address) || env.accept(k) != Some(true) {
          return false, delivered;
        }
        delivered := delivered + [l];
      }
    }
    assert logs[..|logs|] == logs;
    ok := true;
  }

  lemma PrefixOfSum<T>(a: seq<T>, b: seq<T>, c: seq<T>)
    requires c == a + b
    ensures a <= c
  {
  }

  lemma FilterPrefix<T>(s: seq<T>, i: nat, p: T -> bool)
    requires i <= |s|
    ensures Filter(s[..i], p) <= Filter(s, p)
  {
    var a, b := s[..i], s[i..];
    assert s == a + b;
    FilterConcat(a, b, p);
    PrefixOfSum(Filter(a, p), Filter(b, p), Filter(s, p));
  }

  /** One chunk of one pass.  Either every concerned checkpoint and every concerned
      entry moves to the end of the chunk, after the whole stream was delivered, or
      none moves. */
  method ProcessChunk(store: CanonicalStore, entries: seq<Entry>, chunk: Chunk, env: Env, maxAddresses: nat)
    returns (r: Result, after: seq<Entry>, delivered: seq<RawLog>, raws: seq<Raw>)
    requires maxAddresses >= 1
    modifies store`checkpoints
    ensures r.Done? ==> after == Advanced(entries, chunk.to)
    ensures r.Done? ==> CheckpointsAfter(old(store.checkpoints), store.checkpoints, entries, chunk)
    ensures r.Done? ==> Delivered(entries, chunk, env, delivered, raws) && AllTaken(entries, chunk, env, delivered)
    ensures !r.Done? ==> after == entries && unchanged(store)
    ensures Smooth(env) && !r.Done? ==>
      ReadFor(raws, Concerned(entries, chunk.to), env.read) && !(Complete(chunk) && AllAcceptable(raws, entries, chunk))
  {
    var concerned := Concerned(entries, chunk.to);
    after, delivered, raws := entries, [], [];
    if concerned == [] {
      NothingAdvances(entries, chunk.to);
      assert Keys([]) == {};
      return Done, entries, [], [];
    }
    if !AllActive(concerned, 0, env) || exists e :: e in concerned && env.expiry(e.address).ExpiryFails? {
      return Threw, entries, [], [];
    }
    if exists e :: e in concerned && env.expiry(e.address).HasExpired? {
      return Expired, entries, [], [];
    }
    if !AllActive(concerned, 1, env) {
      return Threw, entries, [], [];
    }
    var batches := Partition(AddressList(concerned), maxAddresses);
    var answers := ReadAll(batches, env.read);
    if answers.None? {
      return Threw, entries, [], [];
    }
    raws := answers.value;
    var identified := IdentifyAll(raws, chunk.from, chunk.to, Expected(chunk.headers), Addresses(entries));
    if identified.None? {
      return Threw, entries, [], raws;
    }
    var ok;
    ok, delivered := DeliverLogs(entries, Sort(identified.value, Key()), env);
    if !ok || !AllActive(concerned, 2 + |delivered|, env) || !Complete(chunk) || !env.writeOk {
      return Threw, entries, delivered, raws;
    }
    assert concerned[0].key in Keys(concerned);
    store.SetManyAtomically(Keys(concerned), ChunkCheckpoint(chunk));
    r, after := Done, Advanced(entries, chunk.to);
  }

  /** The headers of the chunk end where the chunk ends. */
  predicate Complete(chunk: Chunk) {
    chunk.headers != [] && Number(chunk.headers[|chunk.headers| - 1]) == chunk.to
  }

  ghost predicate CheckpointsAfter(before: Checkpoints, after: Checkpoints, entries: seq<Entry>, chunk: Chunk) {
    var keys := Keys(Concerned(entries, chunk.to));
    if keys == {} then after == before else Complete(chunk) && after == SetAll(before, keys, ChunkCheckpoint(chunk))
  }

  /** A chunk that concerned somebody was completed only with every log accepted and the checkpoints written. */
  ghost predicate AllTaken(entries: seq<Entry>, chunk: Chunk, env: Env, delivered: seq<RawLog>) {
    Concerned(entries, chunk.to) != [] ==> env.writeOk && forall k :: 0 <= k < |delivered| ==> env.accept(k) == Some(true)
  }

  /** What a completed chunk has read and delivered. */
  ghost predicate Delivered(entries: seq<Entry>, chunk: Chunk, env: Env, delivered: seq<RawLog>, raws: seq<Raw>) {
    var concerned := Concerned(entries, chunk.to);
    if concerned == [] then delivered == [] && raws == [] else (
      AllAcceptable(raws, entries, chunk) && delivered == Stream(entries, raws) && ReadFor(raws, concerned, env.read))
  }

  lemma NothingAdvances(entries: seq<Entry>, to: nat)
    requires Concerned(entries, to) == []
    ensures Advanced(entries, to) == entries
  {
    forall i | 0 <= i < |entries| ensures entries[i].nextBlock > to {
      FilterMember(entries, (e: Entry) => e.nextBlock <= to, entries[i]);
    }
  }
}
