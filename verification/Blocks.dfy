/** Blocks, hashes and ancestry.

    A block hash is modelled by the block itself: a value of a tree type whose
    constructor takes the parent.  Two equal hashes therefore have the same
    number, the same parent and the same whole ancestry, which is what collision
    freedom of the real hash gives.  Forks are different branches of the tree. */
module Blocks {

  datatype Option<+T> = None | Some(value: T)

  datatype Block = Genesis(seal: nat) | Child(parent: Block, seal: nat)

  function Number(b: Block): nat {
    match b
    case Genesis(_) => 0
    case Child(p, _) => Number(p) + 1
  }

  /** The block that the chain ending in `tip` has at height `n`. */
  function At(tip: Block, n: nat): (b: Block)
    requires n <= Number(tip)
    ensures Number(b) == n
  {
    if n == Number(tip) then tip else At(tip.parent, n)
  }

  predicate OnChain(tip: Block, b: Block) {
    Number(b) <= Number(tip) && At(tip, Number(b)) == b
  }

  /** `next` is numbered one above `prev` and names it as its parent. */
  predicate Follows(prev: Block, next: Block) {
    next.Child? && next.parent == prev
  }

  /** `s` is the chain ending in `tip` from height `lo` up to and including `hi`. */
  ghost predicate IsSegment(s: seq<Block>, tip: Block, lo: nat, hi: int) {
    && (lo <= hi ==> hi <= Number(tip))
    && |s| == (if lo <= hi then hi - lo + 1 else 0)
    && forall i {:trigger s[i]} :: 0 <= i < |s| ==> s[i] == At(tip, lo + i)
  }

  lemma {:induction false} AtAt(tip: Block, m: nat, n: nat)
    requires n <= m <= Number(tip)
    ensures At(At(tip, m), n) == At(tip, n)
  {
    if m < Number(tip) {
      AtAt(tip.parent, m, n);
    }
  }

  lemma OnChainTrans(a: Block, b: Block, c: Block)
    requires OnChain(a, b) && OnChain(b, c)
    ensures OnChain(a, c)
  {
    AtAt(a, Number(b), Number(c));
  }

  /** Consecutive heights of one chain are linked. */
  lemma AtFollows(tip: Block, n: nat)
    requires n < Number(tip)
    ensures Follows(At(tip, n), At(tip, n + 1))
  {
    AtAt(tip, n + 1, n);
  }
}
