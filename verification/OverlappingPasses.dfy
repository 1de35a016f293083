/** Requests made during a replay run at once.  Exactly when two such passes that were planned from the same
    stored tip, and have both been finished, leave a consistent state; and two that do not. */
module OverlappingPasses {
  import opened Blocks
  import opened ChainStore
  import opened CanonicalPass
  import opened ChunkLoop
  import opened HonestPasses

  /** What a pass read at the stored tip: the headers from `lo` up to `top`, on one chain through the tip. */
  ghost predicate ReadFrom(headers: seq<Block>, lo: nat, top: Block, tip: Block, cutoff: Block) {
    OnChain(top, tip) && Number(cutoff) <= lo <= Number(tip) && IsSegment(headers, top, lo, Number(top))
  }

  function Overlaid(j: Journal, first: seq<Block>, second: seq<Block>): Journal {
    Upsert(Upsert(j, first), second)
  }

  /** The checkpoints of two different listeners, each at the end of its own pass. */
  function Both(c: Checkpoints, k: string, a: Block, l: string, b: Block): Checkpoints {
    SetAll(SetAll(c, {k}, Checkpoint(Number(a), Some(a))), {l}, Checkpoint(Number(b), Some(b)))
  }

  /** The rows once both have been saved, the second one over the first. */
  lemma TwoOverlays(j: Journal, tip: Block, first: seq<Block>, lo: nat, a: Block, second: seq<Block>, hi: nat, b: Block, cutoff: Block)
    requires Rooted(j, tip) && ReadFrom(first, lo, a, tip, cutoff) && ReadFrom(second, hi, b, tip, cutoff)
    ensures forall n :: n in Overlaid(j, first, second) <==> n in j || lo <= n <= Number(a) || hi <= n <= Number(b)
    ensures forall n :: n in Overlaid(j, first, second) ==>
      Overlaid(j, first, second)[n] == if hi <= n <= Number(b) then At(b, n) else if lo <= n <= Number(a) then At(a, n) else j[n]
  {
    UpsertSegment(j, first, a, lo);
    UpsertSegment(Upsert(j, first), second, b, hi);
  }

  lemma Same(a: Block, b: Block, n: nat)
    requires OnChain(a, b) && n <= Number(b)
    ensures At(a, n) == At(b, n)
  {
    AtAt(a, Number(b), n);
  }

  /** The journal lies on one chain if and only if the second pass reached as high as the first, or read the same chain. */
  lemma StillRootedIff(j: Journal, tip: Block, first: seq<Block>, lo: nat, a: Block, second: seq<Block>, hi: nat, b: Block, cutoff: Block)
    requires Rooted(j, tip) && ReadFrom(first, lo, a, tip, cutoff) && ReadFrom(second, hi, b, tip, cutoff)
    ensures (exists t :: Rooted(Overlaid(j, first, second), t)) <==> Number(a) <= Number(b) || OnChain(a, b)
  {
    var r := Overlaid(j, first, second);
    TwoOverlays(j, tip, first, lo, a, second, hi, b, cutoff);
    if Number(a) <= Number(b) {
      RootedAt(j, tip, first, lo, a, second, hi, b, cutoff, b);
    } else if OnChain(a, b) {
      RootedAt(j, tip, first, lo, a, second, hi, b, cutoff, a);
    } else {
      forall t ensures !Rooted(r, t) {
        if Number(t) != Number(a) {
          assert Number(a) in r && (Number(t) in r ==> Number(t) <= Number(a));
        } else {
          assert r[Number(a)] == a && r[Number(b)] == b;
        }
      }
    }
  }

  lemma RootedAt(j: Journal, tip: Block, first: seq<Block>, lo: nat, a: Block, second: seq<Block>, hi: nat, b: Block, cutoff: Block, t: Block)
    requires Rooted(j, tip) && ReadFrom(first, lo, a, tip, cutoff) && ReadFrom(second, hi, b, tip, cutoff)
    requires (t == b && Number(a) <= Number(b)) || (t == a && OnChain(a, b))
    ensures Rooted(Overlaid(j, first, second), t)
  {
    var r := Overlaid(j, first, second);
    TwoOverlays(j, tip, first, lo, a, second, hi, b, cutoff);
    forall n | n in r ensures n <= Number(t) && r[n] == At(t, n) {
      if n <= Number(tip) {
        Same(a, tip, n);
        Same(b, tip, n);
      } else if n <= Number(b) && t == a {
        Same(a, b, n);
      }
    }
  }

  /** With the checkpoint of each listener at the end of its pass, the state is consistent if and only if one pass read the
      chain of the other. */
  lemma StillConsistentIff(j: Journal, c: Checkpoints, cutoff: Block, first: seq<Block>, lo: nat, a: Block, k: string,
                           second: seq<Block>, hi: nat, b: Block, l: string)
    requires Consistent(j, c, cutoff) && k != l
    requires ReadFrom(first, lo, a, TipOf(j), cutoff) && ReadFrom(second, hi, b, TipOf(j), cutoff)
    ensures Consistent(Overlaid(j, first, second), Both(c, k, a, l, b), cutoff) <==> OnChain(a, b) || OnChain(b, a)
  {
    if OnChain(a, b) {
      BothAnchored(j, c, cutoff, first, lo, a, k, second, hi, b, l, a);
    } else if OnChain(b, a) {
      BothAnchored(j, c, cutoff, first, lo, a, k, second, hi, b, l, b);
    } else if Consistent(Overlaid(j, first, second), Both(c, k, a, l, b), cutoff) {
      var t, d := TipOf(Overlaid(j, first, second)), Both(c, k, a, l, b);
      assert d[k].hash == Some(At(t, d[k].number)) && d[l].hash == Some(At(t, d[l].number));
      if Number(a) <= Number(b) {
        AtAt(t, Number(b), Number(a));
      } else {
        AtAt(t, Number(a), Number(b));
      }
    }
  }

  lemma BothAnchored(j: Journal, c: Checkpoints, cutoff: Block, first: seq<Block>, lo: nat, a: Block, k: string,
                     second: seq<Block>, hi: nat, b: Block, l: string, t: Block)
    requires Consistent(j, c, cutoff) && k != l && ReadFrom(first, lo, a, TipOf(j), cutoff) && ReadFrom(second, hi, b, TipOf(j), cutoff)
    requires (t == a && OnChain(a, b)) || (t == b && OnChain(b, a))
    ensures Consistent(Overlaid(j, first, second), Both(c, k, a, l, b), cutoff)
  {
    var tip := TipOf(j);
    RootedAt(j, tip, first, lo, a, second, hi, b, cutoff, t);
    AboveCutoff(j, tip, first, lo, a, second, hi, b, cutoff);
    OnChainTrans(t, tip, cutoff);
    CheckpointsAnchored(c, cutoff, tip, k, a, l, b, t);
    ConsistentAt(Overlaid(j, first, second), Both(c, k, a, l, b), cutoff, t);
  }

  lemma AboveCutoff(j: Journal, tip: Block, first: seq<Block>, lo: nat, a: Block, second: seq<Block>, hi: nat, b: Block, cutoff: Block)
    requires Rooted(j, tip) && ReadFrom(first, lo, a, tip, cutoff) && ReadFrom(second, hi, b, tip, cutoff)
    requires forall n :: n in j ==> Number(cutoff) <= n
    ensures forall n :: n in Overlaid(j, first, second) ==> Number(cutoff) <= n
  {
    TwoOverlays(j, tip, first, lo, a, second, hi, b, cutoff);
  }

  lemma CheckpointsAnchored(c: Checkpoints, cutoff: Block, tip: Block, k: string, a: Block, l: string, b: Block, t: Block)
    requires Anchored(c, cutoff, tip) && OnChain(a, tip) && OnChain(b, tip) && OnChain(tip, cutoff)
    requires (t == a && OnChain(a, b)) || (t == b && OnChain(b, a))
    ensures Anchored(Both(c, k, a, l, b), cutoff, t)
  {
    AnchoredExtends(c, cutoff, tip, t);
  }

  /** A pass planned at the fresh start. */
  method PlanAt(store: CanonicalStore, key: string, cutoff: Block, tip: Block) returns (r: PlanResult)
    requires store.Valid() && store.cutoff == Some(cutoff) && store.Tip() == cutoff && Number(cutoff) <= Number(tip) && key !in store.checkpoints
    ensures r.Go?
  {
    r := MakePlan(store, Config(cutoff, 1, 100), Request(key, 0, None, false, true, false), HonestWorld(tip, cutoff, Ack({})));
  }

  /** Two passes planned at the fresh start, one of which read `x` and its child and the other `y`: each one alone would do,
      but the journal of both lies on no chain. */
  method TwoForks(cutoff: Block, x: Block, child: Block, y: Block) returns (store: CanonicalStore)
    requires Follows(cutoff, x) && Follows(x, child) && Follows(cutoff, y) && x != y
    ensures store.cutoff == Some(cutoff) && forall t :: !Rooted(store.journal, t)
  {
    store := new CanonicalStore();
    var applied := store.FreshStart(cutoff);
    var first := PlanAt(store, "first", cutoff, child);
    var second := PlanAt(store, "second", cutoff, y);
    ghost var j := store.journal;
    store.SaveCanonicalBlocks([cutoff, x, child]);
    store.SaveCanonicalBlocks([cutoff, y]);
    assert store.journal == Overlaid(j, [cutoff, x, child], [cutoff, y]);
    BothForks(j, cutoff, x, child, y);
  }

  lemma BothForks(j: Journal, cutoff: Block, x: Block, child: Block, y: Block)
    requires Rooted(j, cutoff) && Follows(cutoff, x) && Follows(x, child) && Follows(cutoff, y) && x != y
    ensures forall t :: !Rooted(Overlaid(j, [cutoff, x, child], [cutoff, y]), t)
  {
    ForkRead(cutoff, x, child, y);
    StillRootedIff(j, cutoff, [cutoff, x, child], Number(cutoff), child, [cutoff, y], Number(cutoff), y, cutoff);
  }

  lemma ForkRead(cutoff: Block, x: Block, child: Block, y: Block)
    requires Follows(cutoff, x) && Follows(x, child) && Follows(cutoff, y) && x != y
    ensures ReadFrom([cutoff, x, child], Number(cutoff), child, cutoff, cutoff) && ReadFrom([cutoff, y], Number(cutoff), y, cutoff, cutoff)
    ensures !OnChain(child, y)
  {
    var n := Number(cutoff);
    assert At(child, n + 1) == x && At(child, n) == At(x, n) == cutoff && At(y, n) == cutoff;
  }
}
