/** How the shared scan is set up: which pairs take part, where each one starts, and
    the single request that is handed to the coordinator for all of them. */
module BatchRequest {
  import opened Blocks
  import opened ChainStore
  import opened CanonicalScan
  import opened CanonicalPass
  import opened ChunkLoop
  import opened CursorOrder
  import opened SwapBatch

  datatype Target = Target(key: string, address: string, created: nat, capable: bool)

  datatype Setup = Nothing | Duplicate | Conflicting | Ready(entries: seq<Entry>, request: Request)

  function EntryOf(t: Target, c: Checkpoints): Entry {
    Entry(t.key, t.address, if t.key in c then Some(c[t.key]) else None,
          if t.key in c then c[t.key].number + 1 else t.created)
  }

  function Entries(ts: seq<Target>, c: Checkpoints): seq<Entry> {
    seq(|ts|, i requires 0 <= i < |ts| => EntryOf(ts[i], c))
  }

  ghost predicate DistinctTargets(ts: seq<Target>) {
    forall i, k :: 0 <= i < k < |ts| ==> ts[i].address != ts[k].address && ts[i].key != ts[k].key
  }

  function Capable(): Target -> bool { (t: Target) => t.capable }

  method FindDuplicate(ts: seq<Target>) returns (found: bool)
    ensures found <==> !DistinctTargets(ts)
  {
    var addresses: set<string>, keys: set<string> := {}, {};
    for i := 0 to |ts|
      invariant addresses == set k | 0 <= k < i :: ts[k].address
      invariant keys == set k | 0 <= k < i :: ts[k].key
      invariant DistinctTargets(ts[..i])
    {
      if ts[i].address in addresses || ts[i].key in keys {
        return true;
      }
      addresses, keys := addresses + {ts[i].address}, keys + {ts[i].key};
    }
    assert ts[..|ts|] == ts;
    found := false;
  }

  method SnapshotEntries(ts: seq<Target>, c: Checkpoints) returns (entries: seq<Entry>, first: nat)
    requires ts != []
    ensures entries == Entries(ts, c)
    ensures IsFirst(entries, first)
  {
    entries, first := [EntryOf(ts[0], c)], EntryOf(ts[0], c).nextBlock;
    for i := 1 to |ts|
      invariant |entries| == i && forall k :: 0 <= k < i ==> entries[k] == EntryOf(ts[k], c)
      invariant IsFirst(entries, first)
    {
      var e := EntryOf(ts[i], c);
      IsFirstExtend(entries, first, e);
      first := Min(first, e.nextBlock);
      entries := entries + [e];
    }
  }

  /** The lowest starting block of all pairs. */
  ghost predicate IsFirst(entries: seq<Entry>, first: nat) {
    (exists e :: e in entries && e.nextBlock == first) && forall e :: e in entries ==> first <= e.nextBlock
  }

  lemma IsFirstExtend(entries: seq<Entry>, first: nat, e: Entry)
    requires IsFirst(entries, first)
    ensures IsFirst(entries + [e], Min(first, e.nextBlock))
  {
    var f :| f in entries && f.nextBlock == first;
    assert f in entries + [e] && e in entries + [e];
  }

  /** Pairs whose own checkpoint lies right below the first block. */
  predicate Candidate(e: Entry, first: nat) {
    e.nextBlock == first && e.checkpoint.Some? && e.checkpoint.value.number + 1 == first
  }

  datatype Selection = Conflict | Selected(checkpoint: Option<Checkpoint>)

  predicate Anchored(e: Entry) {
    e.checkpoint.Some? && e.checkpoint.value.hash.Some?
  }

  /** Two candidates are anchored on different blocks. */
  ghost predicate Disagreement(entries: seq<Entry>, first: nat) {
    exists e, f :: e in entries && f in entries && Candidate(e, first) && Candidate(f, first)
                   && Anchored(e) && Anchored(f) && e.checkpoint != f.checkpoint
  }

  /** `c` is some candidate's checkpoint, an anchored one if there is any. */
  ghost predicate Represents(entries: seq<Entry>, first: nat, c: Option<Checkpoint>) {
    && (c.None? ==> forall e :: e in entries ==> !Candidate(e, first))
    && (c.Some? ==> exists e :: e in entries && Candidate(e, first) && e.checkpoint == c)
    && (c.Some? && c.value.hash.None? ==> forall e :: e in entries && Candidate(e, first) ==> !Anchored(e))
  }

  /** Two pairs anchored on different blocks at the same height make the scan impossible;
      otherwise an anchored checkpoint is preferred. */
  method SelectAggregate(entries: seq<Entry>, first: nat) returns (r: Selection)
    ensures r.Conflict? <==> Disagreement(entries, first)
    ensures r.Selected? ==> Represents(entries, first, r.checkpoint)
  {
    var chosen: Option<Checkpoint>, anchor: Option<Checkpoint> := None, None;
    for i := 0 to |entries|
      invariant anchor.None? ==> forall k :: 0 <= k < i && Candidate(entries[k], first) ==> !Anchored(entries[k])
      invariant anchor.Some? ==> anchor.value.hash.Some?
                                 && exists k :: 0 <= k < i && Candidate(entries[k], first) && entries[k].checkpoint == anchor
      invariant anchor.Some? ==> forall k :: 0 <= k < i && Candidate(entries[k], first) && Anchored(entries[k]) ==> entries[k].checkpoint == anchor
      invariant chosen.None? ==> forall k :: 0 <= k < i ==> !Candidate(entries[k], first)
      invariant chosen.Some? ==> exists k :: 0 <= k < i && Candidate(entries[k], first) && entries[k].checkpoint == chosen
    {
      var e := entries[i];
      if Candidate(e, first) {
        if chosen.None? {
          chosen := e.checkpoint;
        }
        if Anchored(e) {
          if anchor.None? {
            anchor := e.checkpoint;
          } else if anchor != e.checkpoint {
            return Conflict;
          }
        }
      }
    }
    r := Selected(if anchor.Some? then anchor else chosen);
  }

  /** The entries are the pairs that can be scanned, and the request is for all of them. */
  ghost predicate IsReady(targets: seq<Target>, c: Checkpoints, entries: seq<Entry>, req: Request) {
    && !Disagreement(entries, req.startBlock) && Represents(entries, req.startBlock, req.checkpoint)
    && DistinctEntries(entries) && entries != []
    && (forall t :: t in targets && t.capable ==> EntryOf(t, c) in entries)
    && (forall e :: e in entries ==> exists t :: t in targets && t.capable && e == EntryOf(t, c))
    && IsFirst(entries, req.startBlock)
    && req.ignoreStored && !req.persist && !req.bootstrapHead
    && (req.checkpoint.Some? ==> req.checkpoint.value.number + 1 == req.startBlock)
  }

  /** Take the pairs that can be scanned and ask the coordinator for one pass over all of them. */
  method SetUp(targets: seq<Target>, checkpoints: Checkpoints) returns (r: Setup)
    ensures r.Nothing? <==> Filter(targets, Capable()) == []
    ensures r.Duplicate? <==> !DistinctTargets(Filter(targets, Capable()))
    ensures r.Conflicting? ==> exists first :: IsFirst(Entries(Filter(targets, Capable()), checkpoints), first)
                                 && Disagreement(Entries(Filter(targets, Capable()), checkpoints), first)
    ensures r.Ready? ==> IsReady(targets, checkpoints, r.entries, r.request)
  {
    var capable := Filter(targets, Capable());
    if capable == [] {
      return Nothing;
    }
    var duplicate := FindDuplicate(capable);
    if duplicate {
      return Duplicate;
    }
    var entries, first := SnapshotEntries(capable, checkpoints);
    var selected := SelectAggregate(entries, first);
    if selected.Conflict? {
      return Conflicting;
    }
    forall t | t in targets && t.capable ensures EntryOf(t, checkpoints) in entries {
      FilterMember(targets, Capable(), t);
      var i :| 0 <= i < |capable| && capable[i] == t;
      assert entries[i] in entries;
    }
    forall e | e in entries ensures exists t :: t in targets && t.capable && e == EntryOf(t, checkpoints) {
      var i :| 0 <= i < |entries| && entries[i] == e;
      FilterMember(targets, Capable(), capable[i]);
      assert capable[i] in targets && capable[i].capable;
    }
    r := Ready(entries, Request("swap-batch", first, selected.checkpoint, true, false, false));
  }

  /** The shared pass begins for every pair exactly where a pass of its own would: at its
      starting block, or just above the cutoff when that is higher. */
  lemma StartsWhereTheyStart(cutoff: Block, entries: seq<Entry>, req: Request, c: Checkpoints, head: nat, e: Entry)
    requires IsFirst(entries, req.startBlock) && e in entries
    requires req.ignoreStored && !req.bootstrapHead
    requires req.checkpoint.Some? ==> req.checkpoint.value.number + 1 == req.startBlock
    ensures var from := FromBlock(cutoff, req, Effective(cutoff, Chosen(req, c)), head);
      Max(e.nextBlock, from) == Max(e.nextBlock, Number(cutoff) + 1)
  {
  }

  /** Pairs never conflict when their checkpoints come from a consistent store. */
  lemma NoConflict(j: Journal, c: Checkpoints, cutoff: Block, ts: seq<Target>, first: nat, e: Entry, f: Entry)
    requires Consistent(j, c, cutoff)
    requires exists t :: t in ts && e == EntryOf(t, c)
    requires exists t :: t in ts && f == EntryOf(t, c)
    requires Candidate(e, first) && Candidate(f, first)
    ensures e.checkpoint == f.checkpoint
  {
    var t :| t in ts && e == EntryOf(t, c);
    var u :| u in ts && f == EntryOf(u, c);
    assert c[t.key].number == c[u.key].number;
  }
}
