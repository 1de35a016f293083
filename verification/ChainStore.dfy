/** The persisted side of chain ingestion: the journal of canonical blocks, the
    listener checkpoints and the fresh-start cutoff.  Each SQL statement or
    transaction is one method, hence one atomic step. */
module ChainStore {
  import opened Blocks

  const RETENTION: nat := 128

  /** A checkpoint with no hash is a legacy row. */
  datatype Checkpoint = Checkpoint(number: nat, hash: Option<Block>)

  type Journal = map<nat, Block>
  type Checkpoints = map<string, Checkpoint>

  ghost function MaxKey(s: set<nat>): (m: nat)
    requires s != {}
    ensures m in s && forall x :: x in s ==> x <= m
  {
    var x :| x in s;
    if s == {x} then x else
      var y := MaxKey(s - {x});
      assert s == (s - {x}) + {x};
      if y < x then x else y
  }

  /** The stored tip: the row with the greatest block number. */
  ghost function TipOf(j: Journal): (b: Block)
    requires j != map[]
  {
    j[MaxKey(j.Keys)]
  }

  /** Every journal row is the ancestor of `tip` at its height, and `tip` is the highest row. */
  ghost predicate Rooted(j: Journal, tip: Block) {
    && Number(tip) in j
    && forall n :: n in j ==> n <= Number(tip) && j[n] == At(tip, n)
  }

  /** Every checkpoint lies between the cutoff and `tip` and carries the hash
      that the tip's own ancestry has at that height. */
  ghost predicate Anchored(c: Checkpoints, cutoff: Block, tip: Block) {
    forall k :: k in c ==>
      Number(cutoff) <= c[k].number <= Number(tip) && c[k].hash == Some(At(tip, c[k].number))
  }

  /** No height is missing between the lowest and the highest row. */
  ghost predicate Contiguous(j: Journal) {
    forall lo, n, hi {:trigger lo in j, n in j, hi in j} ::
      lo in j && hi in j && lo <= n <= hi ==> n in j
  }

  /** The invariant of the persisted chain state. */
  ghost predicate Consistent(j: Journal, c: Checkpoints, cutoff: Block) {
    && j != map[]
    && Rooted(j, TipOf(j))
    && OnChain(TipOf(j), cutoff)
    && (forall n :: n in j ==> Number(cutoff) <= n)
    && Anchored(c, cutoff, TipOf(j))
  }

  lemma TipIs(j: Journal, tip: Block)
    requires Rooted(j, tip)
    ensures j != map[] && TipOf(j) == tip
  {
    assert MaxKey(j.Keys) == Number(tip);
  }

  /** Two chains that agree at the tip agree on every row and checkpoint below it. */
  lemma AnchoredExtends(c: Checkpoints, cutoff: Block, tip: Block, top: Block)
    requires Anchored(c, cutoff, tip) && OnChain(top, tip)
    ensures Anchored(c, cutoff, top)
  {
    forall k | k in c ensures At(top, c[k].number) == At(tip, c[k].number) {
      AtAt(top, Number(tip), c[k].number);
    }
  }

  function Upsert(j: Journal, s: seq<Block>): Journal {
    if s == [] then j else Upsert(j, s[..|s| - 1])[Number(s[|s| - 1]) := s[|s| - 1]]
  }

  ghost predicate IsOverlay(j: Journal, r: Journal, tip: Block, lo: nat, n: nat)
    requires lo + n <= Number(tip) + 1
  {
    && (forall m :: m in r <==> m in j || lo <= m < lo + n)
    && (forall m :: m in r ==> r[m] == if lo <= m < lo + n then At(tip, m) else j[m])
  }

  /** Upserting consecutive headers of one chain overlays exactly that range. */
  lemma {:induction false} UpsertSegment(j: Journal, s: seq<Block>, tip: Block, lo: nat)
    requires lo + |s| <= Number(tip) + 1
    requires forall i :: 0 <= i < |s| ==> s[i] == At(tip, lo + i)
    ensures IsOverlay(j, Upsert(j, s), tip, lo, |s|)
  {
    if s != [] {
      var n := |s| - 1;
      UpsertSegment(j, s[..n], tip, lo);
      var r := Upsert(j, s[..n]);
      assert IsOverlay(j, r, tip, lo, n);
      assert s[n] == At(tip, lo + n) && Number(s[n]) == lo + n;
      assert Upsert(j, s) == r[lo + n := At(tip, lo + n)];
    }
  }

  /** Saving any prefix of a scanned segment keeps every row on one chain: the
      tip becomes the higher of the old tip and the last saved header. */
  lemma OverlayRooted(j: Journal, r: Journal, tip: Block, top: Block, lo: nat, n: nat)
    requires Rooted(j, tip) && OnChain(top, tip)
    requires lo + n <= Number(top) + 1
    requires IsOverlay(j, r, top, lo, n)
    ensures Rooted(r, if n == 0 || lo + n - 1 <= Number(tip) then tip else At(top, lo + n - 1))
    ensures OnChain(if n == 0 || lo + n - 1 <= Number(tip) then tip else At(top, lo + n - 1), tip)
  {
    var last := if n == 0 || lo + n - 1 <= Number(tip) then tip else At(top, lo + n - 1);
    if last != tip {
      AtAt(top, lo + n - 1, Number(tip));
    }
    assert OnChain(top, last) by { if last != tip { AtAt(top, lo + n - 1, lo + n - 1); } }
    forall m | m in r ensures m <= Number(last) && r[m] == At(last, m) {
      AtAt(top, Number(last), m);
      if !(lo <= m < lo + n) {
        AtAt(top, Number(tip), m);
      }
    }
  }

  function Prune(j: Journal, before: nat): Journal {
    map n | n in j && before <= n :: j[n]
  }

  function SetAll(c: Checkpoints, keys: set<string>, cp: Checkpoint): (r: Checkpoints)
    ensures r.Keys == c.Keys + keys
    ensures forall k :: k in r ==> r[k] == if k in keys then cp else c[k]
  {
    map k | k in c.Keys + keys :: if k in keys then cp else c[k]
  }

  /** The checkpoints after a rewind: those above the ancestor are pulled down to it. */
  function PullDown(c: Checkpoints, ancestor: Block): (r: Checkpoints)
    ensures r.Keys == c.Keys
  {
    map k | k in c :: if c[k].number > Number(ancestor)
                      then Checkpoint(Number(ancestor), Some(ancestor)) else c[k]
  }

  function DropAbove(j: Journal, n: nat): Journal {
    map m | m in j && m <= n :: j[m]
  }

  /** Rewinding to a stored block keeps the invariant, with that block as the new tip. */
  lemma RewindConsistent(j: Journal, c: Checkpoints, cutoff: Block, ancestor: Block)
    requires Consistent(j, c, cutoff)
    requires Number(ancestor) in j && j[Number(ancestor)] == ancestor
    ensures Consistent(DropAbove(j, Number(ancestor)), PullDown(c, ancestor), cutoff)
    ensures TipOf(DropAbove(j, Number(ancestor))) == ancestor
  {
    var tip := TipOf(j);
    var r := DropAbove(j, Number(ancestor));
    forall m | m in r ensures m <= Number(ancestor) && r[m] == At(ancestor, m) {
      AtAt(tip, Number(ancestor), m);
    }
    TipIs(r, ancestor);
    AtAt(tip, Number(ancestor), Number(cutoff));
    PulledDownAnchored(c, cutoff, tip, ancestor);
  }

  lemma PulledDownAnchored(c: Checkpoints, cutoff: Block, tip: Block, ancestor: Block)
    requires Anchored(c, cutoff, tip) && OnChain(tip, ancestor) && Number(cutoff) <= Number(ancestor)
    ensures Anchored(PullDown(c, ancestor), cutoff, ancestor)
  {
    forall k | k in c && c[k].number <= Number(ancestor) ensures At(ancestor, c[k].number) == At(tip, c[k].number) {
      AtAt(tip, Number(ancestor), c[k].number);
    }
  }

  ghost predicate IsOldest(c: Checkpoints, o: Option<nat>) {
    match o
    case None => c == map[]
    case Some(n) => (exists k :: k in c && c[k].number == n) && forall k :: k in c ==> n <= c[k].number
  }

  /** The `limit` highest rows, highest first. */
  ghost function TopRows(j: Journal, limit: nat): (rows: seq<Block>)
    decreases limit
  {
    if limit == 0 || j == map[] then []
    else [TipOf(j)] + TopRows(j - {MaxKey(j.Keys)}, limit - 1)
  }

  class CanonicalStore {
    var journal: Journal
    var checkpoints: Checkpoints
    var cutoff: Option<Block>  // the latest applied fresh start

    constructor ()
      ensures journal == map[] && checkpoints == map[] && cutoff == None
    {
      journal, checkpoints, cutoff := map[], map[], None;
    }

    ghost predicate Valid()
      reads this
    {
      cutoff.Some? && Consistent(journal, checkpoints, cutoff.value)
    }

    ghost function Tip(): Block
      reads this
      requires journal != map[]
    {
      TipOf(journal)
    }

    /** A fresh start is refused when it would move the cutoff back or onto
        another fork; otherwise it is the base case of the invariant. */
    method FreshStart(c: Block) returns (applied: bool)
      modifies this
      ensures applied <==> (old(cutoff).None? || Number(c) > Number(old(cutoff).value) || c == old(cutoff).value)
      ensures !applied ==> unchanged(this)
      ensures applied ==> Valid() && cutoff == Some(c) && Tip() == c && Contiguous(journal)
      ensures applied ==> journal == map[Number(c) := c]
      ensures applied ==>
        (checkpoints == SetAll(old(checkpoints), old(checkpoints).Keys + {"pair-created"}, Checkpoint(Number(c), Some(c))))
    {
      if cutoff.Some? && (Number(c) < Number(cutoff.value)
                          || (Number(c) == Number(cutoff.value) && c != cutoff.value)) {
        return false;
      }
      var cp := Checkpoint(Number(c), Some(c));
      checkpoints := SetAll(checkpoints, checkpoints.Keys, cp);
      checkpoints := checkpoints["pair-created" := cp];
      journal := map[];
      journal := journal[Number(c) := c];
      cutoff := Some(c);
      applied := true;
      TipIs(journal, c);
    }

    method GetCanonicalTip() returns (tip: Option<Block>)
      ensures tip == if journal == map[] then None else Some(TipOf(journal))
    {
      if journal == map[] {
        return None;
      }
      var n := HighestNumber(journal);
      tip := Some(journal[n]);
    }

    method ListCanonicalDescending(limit: nat) returns (rows: seq<Block>)
      ensures rows == TopRows(journal, limit)
    {
      rows := [];
      var rest := journal;
      while |rows| < limit && rest != map[]
        invariant |rows| <= limit
        invariant TopRows(journal, limit) == rows + TopRows(rest, limit - |rows|)
        decreases limit - |rows|
      {
        var n := HighestNumber(rest);
        rows := rows + [rest[n]];
        rest := rest - {n};
      }
    }

    method SaveCanonicalBlocks(blocks: seq<Block>)
      modifies this`journal
      ensures journal == Upsert(old(journal), blocks)
    {
      for i := 0 to |blocks|
        invariant journal == Upsert(old(journal), blocks[..i])
      {
        assert blocks[..i + 1][..i] == blocks[..i];
        journal := journal[Number(blocks[i]) := blocks[i]];
      }
      assert blocks[..|blocks|] == blocks;
    }

    method PruneCanonicalBefore(n: nat)
      modifies this`journal
      ensures journal == Prune(old(journal), n)
    {
      journal := map m | m in journal && n <= m :: journal[m];
    }

    method GetCheckpoint(key: string) returns (c: Option<Checkpoint>)
      ensures c == if key in checkpoints then Some(checkpoints[key]) else None
    {
      c := if key in checkpoints then Some(checkpoints[key]) else None;
    }

    method GetOldestBlockNumber() returns (oldest: Option<nat>)
      ensures IsOldest(checkpoints, oldest)
    {
      oldest := None;
      var keys := checkpoints.Keys;
      while keys != {}
        invariant keys <= checkpoints.Keys
        invariant oldest.None? ==> keys == checkpoints.Keys
        invariant oldest.Some? ==> exists k :: k in checkpoints && checkpoints[k].number == oldest.value
        invariant oldest.Some? ==> forall k :: k in checkpoints && k !in keys ==> oldest.value <= checkpoints[k].number
      {
        var k :| k in keys;
        if oldest.None? || checkpoints[k].number < oldest.value {
          oldest := Some(checkpoints[k].number);
        }
        keys := keys - {k};
      }
    }

    method SetCheckpoint(key: string, c: Checkpoint)
      modifies this`checkpoints
      ensures checkpoints == SetAll(old(checkpoints), {key}, c)
    {
      checkpoints := checkpoints[key := c];
    }

    /** One transaction: all the keys move together. */
    method SetManyAtomically(keys: set<string>, c: Checkpoint)
      modifies this`checkpoints
      ensures checkpoints == SetAll(old(checkpoints), keys, c)
    {
      checkpoints := map k | k in checkpoints.Keys + keys :: if k in keys then c else checkpoints[k];
    }
  }

  method HighestNumber(j: Journal) returns (n: nat)
    requires j != map[]
    ensures n == MaxKey(j.Keys) && n in j
  {
    var keys := j.Keys;
    n :| n in keys;
    keys := keys - {n};
    while keys != {}
      invariant keys <= j.Keys && n in j
      invariant forall m :: m in j && m !in keys ==> m <= n
    {
      var m :| m in keys;
      if n < m {
        n := m;
      }
      keys := keys - {m};
    }
  }
}
