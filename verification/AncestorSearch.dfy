/** Finding where the stored chain and the remote chain part. */
module AncestorSearch {
  import opened Blocks
  import opened ChainStore

  datatype Reorg = Reorg(ancestor: Option<Block>, oldTip: Block, newTip: Block, depth: Option<nat>)

  /** The answers of the reader during one search; the head is read twice. */
  datatype Remote = Remote(firstHead: Option<Block>, at: nat -> Option<Block>, secondHead: Option<Block>)

  /** What the repository demands before it rewinds. */
  predicate ValidShallow(r: Reorg) {
    && r.ancestor.Some? && r.depth.Some?
    && 1 <= r.depth.value <= RETENTION
    && Number(r.ancestor.value) < Number(r.oldTip)
    && r.depth.value == Number(r.oldTip) - Number(r.ancestor.value)
    && Number(r.newTip) >= Number(r.oldTip)
  }

  /** Rows that start at the tip and name each other as parents, at most a retention window. */
  predicate ValidWindow(tip: Block, rows: seq<Block>) {
    && 0 < |rows| <= RETENTION
    && rows[0] == tip
    && forall i :: 0 < i < |rows| ==> Follows(rows[i], rows[i - 1])
  }

  method ValidateDescendingWindow(tip: Block, rows: seq<Block>) returns (ok: bool)
    ensures ok <==> ValidWindow(tip, rows)
  {
    if |rows| == 0 || |rows| > RETENTION || rows[0] != tip {
      return false;
    }
    for i := 1 to |rows|
      invariant forall k :: 0 < k < i ==> Follows(rows[k], rows[k - 1])
    {
      if !Follows(rows[i], rows[i - 1]) {
        return false;
      }
    }
    ok := true;
  }

  lemma {:induction false} WindowIsAncestry(tip: Block, rows: seq<Block>, i: nat)
    requires ValidWindow(tip, rows) && i < |rows|
    ensures i <= Number(tip) && Number(rows[i]) == Number(tip) - i && At(tip, Number(tip) - i) == rows[i]
  {
    if i > 0 {
      WindowIsAncestry(tip, rows, i - 1);
      assert Follows(rows[i], rows[i - 1]);
      AtAt(tip, Number(rows[i - 1]), Number(rows[i]));
    }
  }

  /** The answer for a window height: the block already read at the old tip, a new read below it. */
  function Answer(remoteOldTip: Block, remote: Remote, n: nat): Option<Block> {
    if n == Number(remoteOldTip) then Some(remoteOldTip) else remote.at(n)
  }

  /** The remote chain, as the ancestry of the block read at the old tip's height, has `b`. */
  predicate Shared(remoteOldTip: Block, b: Block) {
    OnChain(remoteOldTip, b)
  }

  /** `r` is where the chains part, among the stored rows above the cutoff. */
  ghost predicate IsCommonAncestor(a: Option<Block>, rows: seq<Block>, cutoff: Block, remoteOldTip: Block) {
    match a
    case None => forall i :: 0 <= i < |rows| && Number(cutoff) <= Number(rows[i]) ==> !Shared(remoteOldTip, rows[i])
    case Some(b) =>
      && b in rows && Number(cutoff) <= Number(b)
      && forall i :: 0 <= i < |rows| ==> (Shared(remoteOldTip, rows[i]) <==> Number(rows[i]) <= Number(b))
  }

  /** Once a row is shared, so is every row below it. */
  lemma SharedIsDownwardClosed(tip: Block, rows: seq<Block>, remoteOldTip: Block, i: nat, k: nat)
    requires ValidWindow(tip, rows) && i <= k < |rows| && Shared(remoteOldTip, rows[i])
    ensures Shared(remoteOldTip, rows[k])
  {
    WindowIsAncestry(tip, rows, i);
    WindowIsAncestry(tip, rows, k);
    AtAt(tip, Number(rows[i]), Number(rows[k]));
    OnChainTrans(remoteOldTip, rows[i], rows[k]);
  }

  /** The first shared row met on the way down is the common ancestor. */
  lemma FirstHit(tip: Block, rows: seq<Block>, cutoff: Block, remoteOldTip: Block, i: nat)
    requires ValidWindow(tip, rows) && i < |rows| && Number(cutoff) <= Number(rows[i]) && Shared(remoteOldTip, rows[i])
    requires forall k :: 0 <= k < i ==> !Shared(remoteOldTip, rows[k])
    ensures IsCommonAncestor(Some(rows[i]), rows, cutoff, remoteOldTip)
  {
    WindowIsAncestry(tip, rows, i);
    forall k | 0 <= k < |rows| ensures Shared(remoteOldTip, rows[k]) <==> Number(rows[k]) <= Number(rows[i]) {
      WindowIsAncestry(tip, rows, k);
      if k >= i {
        SharedIsDownwardClosed(tip, rows, remoteOldTip, i, k);
      }
    }
  }

  /** Without a hit down to the cutoff or the end of the window nothing is shared. */
  lemma NoHit(tip: Block, rows: seq<Block>, cutoff: Block, remoteOldTip: Block, i: nat)
    requires ValidWindow(tip, rows) && i <= |rows| && (i < |rows| ==> Number(rows[i]) < Number(cutoff))
    requires forall k :: 0 <= k < i ==> !Shared(remoteOldTip, rows[k])
    ensures IsCommonAncestor(None, rows, cutoff, remoteOldTip)
  {
    forall k | 0 <= k < |rows| && Number(cutoff) <= Number(rows[k]) ensures !Shared(remoteOldTip, rows[k]) {
      if k >= i {
        WindowIsAncestry(tip, rows, i);
        WindowIsAncestry(tip, rows, k);
      }
    }
  }

  /** The search.  Failing answers, unlinked answers and a head that moved meanwhile
      are errors; otherwise the ancestor found is the highest shared row.  `asked`
      lists the heights read below the old tip. */
  method FindAncestor(cutoff: Block, oldTip: Block, remoteOldTip: Block, rows: seq<Block>, head: nat, remote: Remote)
    returns (r: Option<Reorg>, asked: seq<nat>)
    requires Number(cutoff) <= Number(oldTip) <= head
    requires Number(remoteOldTip) == Number(oldTip) && remoteOldTip != oldTip
    ensures forall i :: 0 <= i < |asked| ==> Number(cutoff) <= asked[i] < Number(oldTip)
    ensures r.Some? ==>
      && ValidWindow(oldTip, rows)
      && IsCommonAncestor(r.value.ancestor, rows, cutoff, remoteOldTip)
      && r.value.oldTip == oldTip && remote.firstHead == remote.secondHead == Some(r.value.newTip)
      && Number(r.value.newTip) == head
    ensures r.Some? && r.value.ancestor.Some? ==> ValidShallow(r.value) && r.value.depth.value <= RETENTION - 1
    ensures r.Some? && r.value.ancestor.None? ==> r.value.depth == None
    ensures ValidWindow(oldTip, rows) && Honest(cutoff, remoteOldTip, head, remote) ==> r.Some?
  {
    asked := [];
    var valid := ValidateDescendingWindow(oldTip, rows);
    if !valid || remote.firstHead.None? || Number(remote.firstHead.value) != head {
      return None, asked;
    }
    var ancestor: Option<Block> := None;
    var newer: Option<Block> := None;
    var i := 0;
    while i < |rows| && Number(cutoff) <= Number(rows[i])
      invariant i <= |rows| && i <= Number(oldTip) + 1 && ancestor.None?
      invariant newer == if i == 0 then None else Some(At(remoteOldTip, Number(oldTip) - (i - 1)))
      invariant forall k :: 0 <= k < i ==> !Shared(remoteOldTip, rows[k])
      invariant forall k :: 0 <= k < |asked| ==> Number(cutoff) <= asked[k] < Number(oldTip)
    {
      var stored := rows[i];
      WindowIsAncestry(oldTip, rows, i);
      if i > 0 {
        asked := asked + [Number(stored)];
        AtFollows(remoteOldTip, Number(stored));
      }
      var answer := Answer(remoteOldTip, remote, Number(stored));
      if answer.None? || Number(answer.value) != Number(stored) {
        return None, asked;
      }
      if newer.Some? && !Follows(answer.value, newer.value) {
        return None, asked;
      }
      if answer.value == stored {
        ancestor := Some(stored);
        break;
      }
      newer := answer;
      i := i + 1;
    }
    if remote.secondHead != remote.firstHead {
      return None, asked;
    }
    if ancestor.Some? {
      FirstHit(oldTip, rows, cutoff, remoteOldTip, i);
    } else {
      NoHit(oldTip, rows, cutoff, remoteOldTip, i);
    }
    var depth := if ancestor.Some? then Some(Number(oldTip) - Number(ancestor.value)) else None;
    r := Some(Reorg(ancestor, oldTip, remote.firstHead.value, depth));
  }

  /** A reader that answers from one chain throughout the search. */
  ghost predicate Honest(cutoff: Block, remoteOldTip: Block, head: nat, remote: Remote) {
    && remote.firstHead.Some? && Number(remote.firstHead.value) == head
    && remote.secondHead == remote.firstHead
    && forall n :: Number(cutoff) <= n < Number(remoteOldTip) ==> remote.at(n) == Some(At(remoteOldTip, n))
  }

  lemma ContiguousWithoutTop(j: Journal, top: nat)
    requires Contiguous(j) && forall n :: n in j ==> n <= top
    ensures Contiguous(j - {top})
  {
  }

  /** A journal without gaps, without its tip, is a journal without gaps ending in the tip's parent. */
  lemma WithoutTip(j: Journal, tip: Block)
    requires Rooted(j, tip) && Contiguous(j) && j - {Number(tip)} != map[]
    ensures Number(tip) > 0
    ensures var below := At(tip, Number(tip) - 1);
      Rooted(j - {Number(tip)}, below) && Contiguous(j - {Number(tip)}) && Follows(below, tip)
  {
    var rest, t := j - {Number(tip)}, Number(tip);
    var n :| n in rest;
    assert n in j && t in j && t - 1 in j;
    AtFollows(tip, t - 1);
    var below := At(tip, t - 1);
    assert t - 1 in rest;
    forall m | m in rest ensures rest[m] == At(below, m) {
      AtAt(tip, t - 1, m);
    }
    ContiguousWithoutTop(j, t);
  }

  lemma FirstRow(j: Journal, tip: Block, limit: nat)
    requires Rooted(j, tip) && limit > 0
    ensures TopRows(j, limit) == [tip] + TopRows(j - {Number(tip)}, limit - 1)
  {
    TipIs(j, tip);
    assert MaxKey(j.Keys) == Number(tip);
  }

  /** The window read from a journal without gaps always passes its validation. */
  lemma {:induction false} ContiguousWindow(j: Journal, tip: Block, limit: nat, i: nat)
    requires Rooted(j, tip) && Contiguous(j) && i < |TopRows(j, limit)|
    ensures TopRows(j, limit)[0] == tip
    ensures i > 0 ==> Follows(TopRows(j, limit)[i], TopRows(j, limit)[i - 1])
    decreases limit
  {
    FirstRow(j, tip, limit);
    var rest := j - {Number(tip)};
    if i > 0 {
      WithoutTip(j, tip);
      ContiguousWindow(rest, At(tip, Number(tip) - 1), limit - 1, i - 1);
    }
  }
}
