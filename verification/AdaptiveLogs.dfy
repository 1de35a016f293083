/** The log reader that adapts the width of its requests: what a returned result
    contains, and exactly when it returns at all. */
module AdaptiveLogs {

  const SUCCESS_TARGET := 3

  /** A provider's answer to one request for the logs of some blocks. */
  datatype Reply = Logs(logs: seq<int>) | TooLarge | Broken

  /** What is answered to the `k`-th request, for blocks `lo..hi`. */
  type Source = (nat, nat, nat) -> Reply

  datatype ReadResult = Complete(output: seq<int>) | Unsplittable | Failed | Unfinished

  function Halved(range: nat): nat {
    if range / 2 < 1 then 1 else range / 2
  }

  /** Range and success counter after a successful read. */
  function Recorded(configured: nat, range: nat, stable: nat): (nat, nat) {
    if range >= configured then (range, 0)
    else if stable + 1 < SUCCESS_TARGET then (range, stable + 1)
    else (range + 1, 0)
  }

  class LogProvider {
    const configured: nat
    var range: nat
    var stable: nat

    constructor (configured: nat)
      requires configured >= 1
      ensures Valid() && this.configured == range == configured && stable == 0
    {
      this.configured, range, stable := configured, configured, 0;
    }

    predicate Valid()
      reads this
    {
      1 <= range <= configured && stable < SUCCESS_TARGET
    }

    method ShrinkLogRange() returns (reduced: bool)
      requires Valid()
      modifies this
      ensures Valid() && range == Halved(old(range)) && stable == 0
      ensures reduced <==> old(range) > 1
    {
      var previous := range;
      range := if previous / 2 < 1 then 1 else previous / 2;
      stable := 0;
      reduced := range < previous;
    }

    method RecordSuccessfulLogRead()
      requires Valid()
      modifies this
      ensures Valid() && (range, stable) == Recorded(configured, old(range), old(stable))
    {
      if range >= configured {
        stable := 0;
        return;
      }
      stable := stable + 1;
      if stable < SUCCESS_TARGET {
        return;
      }
      range := if range + 1 < configured then range + 1 else configured;
      stable := 0;
    }

    /** Read the logs of `from..to`, with at most `fuel` requests.  Whatever pattern of shrinking,
        growing and starting over, a result is made of adjacent reads covering exactly the range. */
    method Read(from: nat, to: nat, source: Source, fuel: nat) returns (r: ReadResult, ghost parts: seq<Request>)
      requires Valid()
      modifies this
      ensures Valid()
      ensures r.Complete? ==> Gathered(parts, from, to, source, r.output)
      ensures EndsAsFinishes(r.Complete?, to - from + 1, configured, source, Point(0, old(range), old(stable), fuel))
      ensures r.Unsplittable? ==> range == 1
    {
      var cursor := from;
      var output := [];
      parts := [];
      ghost var start := Point(0, range, stable, fuel);
      var attempt := 0;
      while cursor <= to && attempt < fuel
        invariant Valid() && from <= cursor && attempt <= fuel && (cursor == from ==> parts == [])
        invariant cursor > to ==> (to < from && cursor == from) || cursor == to + 1
        invariant Gathered(parts, from, cursor - 1, source, output)
        invariant OnCourse(start, Point(cursor - from, range, stable, fuel - attempt), to - from + 1, configured, source)
        decreases fuel - attempt
      {
        var end := if cursor + range - 1 > to then to else cursor + range - 1;
        ghost var here := Point(cursor - from, range, stable, fuel - attempt);
        var reply := source(attempt, cursor, end);
        assert end - cursor + 1 == Width(to - from + 1, cursor - from, range);
        match reply {
          case Logs(logs) =>
            CourseAfterRead(start, here, to - from + 1, configured, source, attempt, cursor, end);
            GatherMore(parts, from, Request(attempt, cursor, end), source, output);
            parts := parts + [Request(attempt, cursor, end)];
            output := output + logs;
            RecordSuccessfulLogRead();
            cursor := end + 1;
          case Broken =>
            BrokenIsNotLimited(source, attempt, cursor, end, to - from + 1, configured, start);
            return Failed, parts;
          case TooLarge =>
            CourseAfterShrink(start, here, to - from + 1, configured, source, attempt, cursor, end);
            var reduced := ShrinkLogRange();
            if !reduced {
              return Unsplittable, parts;
            }
            cursor, output, parts := from, [], [];
        }
        attempt := attempt + 1;
      }
      CourseEnds(start, Point(cursor - from, range, stable, fuel - attempt), to - from + 1, configured, source);
      r := if cursor > to then Complete(output) else Unfinished;
    }
  }

  /** For every limited provider the result is complete exactly when reading ends in time. */
  ghost predicate EndsAsFinishes(complete: bool, n: int, configured: nat, source: Source, start: Point)
    requires start.range >= 1
  {
    forall limit :: limit >= 1 && Limited(source, limit) ==> (complete <==> EndsFrom(start, n, configured, limit))
  }

  /** `output` is what adjacent reads covering `from..to` returned. */
  ghost predicate Gathered(parts: seq<Request>, from: nat, to: int, source: Source, output: seq<int>) {
    Covers(parts, from, to) && Answered(parts, source) && output == Collected(parts, source)
  }

  lemma GatherMore(parts: seq<Request>, from: nat, q: Request, source: Source, output: seq<int>)
    requires Gathered(parts, from, q.lo - 1, source, output) && from <= q.lo <= q.hi && (parts == [] ==> q.lo == from)
    requires source(q.attempt, q.lo, q.hi).Logs?
    ensures Gathered(parts + [q], from, q.hi, source, output + source(q.attempt, q.lo, q.hi).logs)
  {
    JoinedExtend(parts, q, from);
    assert (parts + [q])[..|parts|] == parts;
  }

  /** Reading `n` blocks from the given start ends, for every limited provider, exactly when
      it ends from where it has got to. */
  ghost predicate OnCourse(start: Point, at: Point, n: int, configured: nat, source: Source)
    requires start.range >= 1 && at.range >= 1
  {
    forall limit :: limit >= 1 && Limited(source, limit) ==> (EndsFrom(start, n, configured, limit) <==> EndsFrom(at, n, configured, limit))
  }

  /** A moment of reading: position, range, success counter and requests left. */
  datatype Point = Point(pos: nat, range: nat, stable: nat, left: nat)

  predicate EndsFrom(p: Point, n: int, configured: nat, limit: nat)
    requires p.range >= 1
  {
    Finishes(n, configured, limit, p.pos, p.range, p.stable, p.left)
  }

  lemma CourseAfterRead(start: Point, p: Point, n: int, configured: nat, source: Source, k: nat, lo: nat, hi: nat)
    requires start.range >= 1 && p.range >= 1 && OnCourse(start, p, n, configured, source)
    requires p.left > 0 && p.pos < n && lo <= hi && hi - lo + 1 == Width(n, p.pos, p.range) && source(k, lo, hi).Logs?
    ensures var (r, s) := Recorded(configured, p.range, p.stable);
      OnCourse(start, Point(p.pos + hi - lo + 1, r, s, p.left - 1), n, configured, source)
  {
  }

  lemma CourseAfterShrink(start: Point, p: Point, n: int, configured: nat, source: Source, k: nat, lo: nat, hi: nat)
    requires start.range >= 1 && p.range >= 1 && OnCourse(start, p, n, configured, source)
    requires p.left > 0 && p.pos < n && lo <= hi && hi - lo + 1 == Width(n, p.pos, p.range) && source(k, lo, hi).TooLarge?
    ensures p.range > 1 ==> OnCourse(start, Point(0, Halved(p.range), 0, p.left - 1), n, configured, source)
    ensures p.range == 1 ==> EndsAsFinishes(false, n, configured, source, start)
  {
  }

  lemma CourseEnds(start: Point, p: Point, n: int, configured: nat, source: Source)
    requires start.range >= 1 && p.range >= 1 && OnCourse(start, p, n, configured, source)
    requires p.pos >= n || p.left == 0
    ensures EndsAsFinishes(p.pos >= n, n, configured, source, start)
  {
  }

  lemma BrokenIsNotLimited(source: Source, k: nat, lo: nat, hi: nat, n: int, configured: nat, start: Point)
    requires start.range >= 1 && lo <= hi && source(k, lo, hi).Broken?
    ensures EndsAsFinishes(false, n, configured, source, start)
  {
  }

  datatype Request = Request(attempt: nat, lo: nat, hi: nat)

  predicate Adjacent(parts: seq<Request>, i: nat, from: nat)
    requires i < |parts|
  {
    parts[i].lo == (if i == 0 then from else parts[i - 1].hi + 1) && parts[i].lo <= parts[i].hi
  }

  ghost predicate Joined(parts: seq<Request>, from: nat) {
    forall i :: 0 <= i < |parts| ==> Adjacent(parts, i, from)
  }

  /** Adjacent reads from the first block to the last. */
  ghost predicate Covers(parts: seq<Request>, from: nat, to: int) {
    Joined(parts, from) && (if parts == [] then to < from else parts[|parts| - 1].hi == to)
  }

  ghost predicate Answered(parts: seq<Request>, source: Source) {
    forall i :: 0 <= i < |parts| ==> source(parts[i].attempt, parts[i].lo, parts[i].hi).Logs?
  }

  function Collected(parts: seq<Request>, source: Source): seq<int> {
    if parts == [] then [] else
      var q := parts[|parts| - 1];
      Collected(parts[..|parts| - 1], source)
      + match source(q.attempt, q.lo, q.hi) case Logs(logs) => logs case _ => []
  }

  // ---------------------------------------------------- what a result holds

  /** The logs of `lo..hi` when `ledger` gives those of each block. */
  function Between(ledger: nat -> seq<int>, lo: nat, hi: int): seq<int>
    decreases hi - lo + 1
  {
    if hi < lo then [] else Between(ledger, lo, hi - 1) + ledger(hi)
  }

  ghost predicate Truthful(source: Source, ledger: nat -> seq<int>) {
    forall k: nat, lo: nat, hi: nat :: source(k, lo, hi).Logs? ==> source(k, lo, hi).logs == Between(ledger, lo, hi)
  }

  lemma {:induction false} BetweenSplit(ledger: nat -> seq<int>, lo: nat, mid: nat, hi: int)
    requires lo <= mid <= hi + 1
    ensures Between(ledger, lo, hi) == Between(ledger, lo, mid - 1) + Between(ledger, mid, hi)
    decreases hi
  {
    if mid <= hi {
      BetweenSplit(ledger, lo, mid, hi - 1);
    }
  }

  lemma JoinedExtend(parts: seq<Request>, q: Request, from: nat)
    requires Joined(parts, from) && q.lo == (if parts == [] then from else parts[|parts| - 1].hi + 1) && q.lo <= q.hi
    ensures Joined(parts + [q], from)
  {
    forall i | 0 <= i < |parts| ensures Adjacent(parts + [q], i, from) {
      assert Adjacent(parts, i, from);
    }
  }

  lemma JoinedPrefix(parts: seq<Request>, n: nat, from: nat)
    requires Joined(parts, from) && n <= |parts|
    ensures Joined(parts[..n], from)
  {
    forall i | 0 <= i < n ensures Adjacent(parts[..n], i, from) {
      assert Adjacent(parts, i, from);
    }
  }

  lemma {:induction false} JoinedAscends(parts: seq<Request>, from: nat)
    requires Joined(parts, from) && parts != []
    ensures from <= parts[|parts| - 1].lo <= parts[|parts| - 1].hi
  {
    var n := |parts| - 1;
    assert Adjacent(parts, n, from);
    if n > 0 {
      JoinedPrefix(parts, n, from);
      JoinedAscends(parts[..n], from);
    }
  }

  lemma CoversPrefix(parts: seq<Request>, from: nat, to: int)
    requires Covers(parts, from, to) && parts != []
    ensures var n := |parts| - 1;
      Covers(parts[..n], from, parts[n].lo - 1) && from <= parts[n].lo <= parts[n].hi == to
  {
    var n := |parts| - 1;
    JoinedPrefix(parts, n, from);
    JoinedAscends(parts, from);
    assert Adjacent(parts, n, from);
  }

  /** A result holds every log of the range, once and in order, whatever restarts it took. */
  lemma {:induction false} NothingLostOrRepeated(parts: seq<Request>, from: nat, to: int, source: Source, ledger: nat -> seq<int>)
    requires Covers(parts, from, to) && Answered(parts, source) && Truthful(source, ledger)
    ensures Collected(parts, source) == Between(ledger, from, to)
    decreases |parts|
  {
    if parts != [] {
      var n := |parts| - 1;
      CoversPrefix(parts, from, to);
      NothingLostOrRepeated(parts[..n], from, parts[n].lo - 1, source, ledger);
      BetweenSplit(ledger, from, parts[n].lo, to);
      assert source(parts[n].attempt, parts[n].lo, parts[n].hi).logs == Between(ledger, parts[n].lo, to);
    }
  }

  // --------------------------------------------- when the reader terminates

  /** A provider that refuses exactly the requests for more than `limit` blocks. */
  ghost predicate Limited(source: Source, limit: nat) {
    forall k: nat, lo: nat, hi: nat :: lo <= hi ==>
      if hi - lo + 1 <= limit then source(k, lo, hi).Logs? else source(k, lo, hi).TooLarge?
  }

  function Width(n: nat, pos: nat, range: nat): nat
    requires pos <= n
  {
    if n - pos < range then n - pos else range
  }

  /** Does reading `n` blocks end within `fuel` requests, from position `pos`? */
  predicate Finishes(n: int, configured: nat, limit: nat, pos: nat, range: nat, stable: nat, fuel: nat)
    requires range >= 1
    decreases fuel
  {
    if pos >= n then true
    else if fuel == 0 then false
    else if Width(n, pos, range) <= limit then
      Finishes(n, configured, limit, pos + Width(n, pos, range),
               Recorded(configured, range, stable).0, Recorded(configured, range, stable).1, fuel - 1)
    else if range == 1 then false
    else Finishes(n, configured, limit, 0, Halved(range), 0, fuel - 1)
  }

  ghost predicate Terminates(n: nat, configured: nat, limit: nat, pos: nat, range: nat, stable: nat)
    requires range >= 1
  {
    exists fuel: nat :: Finishes(n, configured, limit, pos, range, stable, fuel)
  }

  /** The sum of the ranges `lo..hi`. */
  function Sum(lo: nat, hi: nat): nat
    decreases hi - lo
  {
    if lo > hi then 0 else lo + Sum(lo + 1, hi)
  }

  /** Blocks read while the range climbs from `range` to just above `limit`. */
  function Climb(limit: nat, range: nat, stable: nat): nat
    requires stable < SUCCESS_TARGET
  {
    if range > limit then 0 else (SUCCESS_TARGET - stable) * range + SUCCESS_TARGET * Sum(range + 1, limit)
  }

  lemma ClimbStep(configured: nat, limit: nat, range: nat, stable: nat)
    requires 1 <= range <= limit < configured && stable < SUCCESS_TARGET
    ensures var (r, s) := Recorded(configured, range, stable);
      r <= limit + 1 && s < SUCCESS_TARGET && (r > limit ==> s == 0) && Climb(limit, r, s) + range == Climb(limit, range, stable)
  {
    var (r, s) := Recorded(configured, range, stable);
    if r == range {
      assert (SUCCESS_TARGET - s) * range + range == (SUCCESS_TARGET - stable) * range;
    }
  }

  lemma {:induction false} MoreFuel(n: int, configured: nat, limit: nat, pos: nat, range: nat, stable: nat, fuel: nat, more: nat)
    requires range >= 1 && fuel <= more && Finishes(n, configured, limit, pos, range, stable, fuel)
    ensures Finishes(n, configured, limit, pos, range, stable, more)
    decreases fuel
  {
    if pos < n {
      if Width(n, pos, range) <= limit {
        MoreFuel(n, configured, limit, pos + Width(n, pos, range), Recorded(configured, range, stable).0,
                 Recorded(configured, range, stable).1, fuel - 1, more - 1);
      } else {
        MoreFuel(n, configured, limit, 0, Halved(range), 0, fuel - 1, more - 1);
      }
    }
  }

  /** Terminating does not depend on one successful read more or less. */
  lemma AfterRead(n: nat, configured: nat, limit: nat, pos: nat, range: nat, stable: nat)
    requires range >= 1 && pos < n && Width(n, pos, range) <= limit
    ensures var (r, s) := Recorded(configured, range, stable);
      Terminates(n, configured, limit, pos, range, stable) <==> Terminates(n, configured, limit, pos + Width(n, pos, range), r, s)
  {
    var (r, s) := Recorded(configured, range, stable);
    var next := pos + Width(n, pos, range);
    if Terminates(n, configured, limit, pos, range, stable) {
      var fuel: nat :| Finishes(n, configured, limit, pos, range, stable, fuel);
      assert Finishes(n, configured, limit, next, r, s, fuel - 1);
    }
    if Terminates(n, configured, limit, next, r, s) {
      var fuel: nat :| Finishes(n, configured, limit, next, r, s, fuel);
      assert Finishes(n, configured, limit, pos, range, stable, fuel + 1);
    }
  }

  lemma AfterShrink(n: nat, configured: nat, limit: nat, pos: nat, range: nat, stable: nat)
    requires range > 1 && pos < n && Width(n, pos, range) > limit
    ensures Terminates(n, configured, limit, pos, range, stable) <==> Terminates(n, configured, limit, 0, Halved(range), 0)
  {
    if Terminates(n, configured, limit, pos, range, stable) {
      var fuel: nat :| Finishes(n, configured, limit, pos, range, stable, fuel);
      assert Finishes(n, configured, limit, 0, Halved(range), 0, fuel - 1);
    }
    if Terminates(n, configured, limit, 0, Halved(range), 0) {
      var fuel: nat :| Finishes(n, configured, limit, 0, Halved(range), 0, fuel);
      assert Finishes(n, configured, limit, pos, range, stable, fuel + 1);
    }
  }

  /** What is left can be read before the range has climbed too high. */
  lemma {:induction false} ClimbFinishes(n: nat, configured: nat, limit: nat, pos: nat, range: nat, stable: nat)
    requires 1 <= limit < configured && 1 <= range <= limit + 1 && stable < SUCCESS_TARGET && (range > limit ==> stable == 0)
    requires pos <= n && n - pos <= Climb(limit, range, stable) + limit
    ensures Terminates(n, configured, limit, pos, range, stable)
    decreases n - pos
  {
    if pos == n {
      assert Finishes(n, configured, limit, pos, range, stable, 0);
    } else {
      AfterRead(n, configured, limit, pos, range, stable);
      var (r, s) := Recorded(configured, range, stable);
      if n - pos <= range {
        assert Finishes(n, configured, limit, n, r, s, 0);
      } else {
        ClimbStep(configured, limit, range, stable);
        ClimbFinishes(n, configured, limit, pos + range, r, s);
      }
    }
  }

  /** Otherwise the range climbs one block too high, and everything starts over at half of that. */
  lemma {:induction false} ClimbFails(n: nat, configured: nat, limit: nat, pos: nat, range: nat, stable: nat, fuel: nat)
    requires 1 <= limit < configured && 1 <= range <= limit + 1 && stable < SUCCESS_TARGET && (range > limit ==> stable == 0)
    requires pos <= n && n - pos > Climb(limit, range, stable) + limit
    ensures Terminates(n, configured, limit, pos, range, stable) <==> Terminates(n, configured, limit, 0, Halved(limit + 1), 0)
    ensures Finishes(n, configured, limit, pos, range, stable, fuel) ==>
      fuel > 0 && Finishes(n, configured, limit, 0, Halved(limit + 1), 0, fuel - 1)
    decreases n - pos
  {
    if range > limit {
      AfterShrink(n, configured, limit, pos, range, stable);
    } else {
      ClimbStep(configured, limit, range, stable);
      var (r, s) := Recorded(configured, range, stable);
      AfterRead(n, configured, limit, pos, range, stable);
      if fuel > 0 {
        ClimbFails(n, configured, limit, pos + range, r, s, fuel - 1);
        if Finishes(n, configured, limit, pos, range, stable, fuel) {
          MoreFuel(n, configured, limit, 0, Halved(limit + 1), 0, fuel - 2, fuel - 1);
        }
      } else {
        ClimbFails(n, configured, limit, pos + range, r, s, 0);
      }
    }
  }

  /** The number of blocks read between two failures once the reader has settled. */
  function Cycle(limit: nat): nat {
    SUCCESS_TARGET * Sum(Halved(limit + 1), limit)
  }

  lemma CycleIsClimb(limit: nat)
    requires limit >= 1
    ensures Cycle(limit) == Climb(limit, Halved(limit + 1), 0)
  {
    assert Sum(Halved(limit + 1), limit) == Halved(limit + 1) + Sum(Halved(limit + 1) + 1, limit);
  }

  /** Beyond one cycle and the limit, the reader goes round for ever. */
  lemma {:induction false} LoopsForever(n: nat, configured: nat, limit: nat, fuel: nat)
    requires 1 <= limit < configured && n > Cycle(limit) + limit
    ensures !Finishes(n, configured, limit, 0, Halved(limit + 1), 0, fuel)
    decreases fuel
  {
    CycleIsClimb(limit);
    ClimbFails(n, configured, limit, 0, Halved(limit + 1), 0, fuel);
    if fuel > 0 {
      LoopsForever(n, configured, limit, fuel - 1);
    }
  }

  /** Exactly when a read ends, from a range the provider accepts. */
  lemma EndsIff(n: nat, configured: nat, limit: nat, range: nat, stable: nat)
    requires 1 <= limit < configured && 1 <= range <= limit && stable < SUCCESS_TARGET
    ensures Terminates(n, configured, limit, 0, range, stable) <==> n <= Climb(limit, range, stable) + limit || n <= Cycle(limit) + limit
  {
    if n <= Climb(limit, range, stable) + limit {
      ClimbFinishes(n, configured, limit, 0, range, stable);
    } else {
      ClimbFails(n, configured, limit, 0, range, stable, 0);
      CycleIsClimb(limit);
      if n <= Cycle(limit) + limit {
        ClimbFinishes(n, configured, limit, 0, Halved(limit + 1), 0);
      } else {
        var half := Halved(limit + 1);
        forall fuel: nat ensures !Finishes(n, configured, limit, 0, half, 0, fuel) {
          LoopsForever(n, configured, limit, fuel);
        }
      }
    }
  }

  lemma {:induction false} SumAntitone(lo: nat, mid: nat, hi: nat)
    requires lo <= mid
    ensures Sum(mid, hi) <= Sum(lo, hi)
    decreases mid - lo
  {
    if lo < mid {
      SumAntitone(lo + 1, mid, hi);
    }
  }

  /** Exactly when a read ends, from a range the provider refuses: for instance the configured one. */
  lemma {:induction false} EndsIffFromAbove(n: nat, configured: nat, limit: nat, range: nat, stable: nat)
    requires 1 <= limit < range <= configured && stable < SUCCESS_TARGET
    ensures Terminates(n, configured, limit, 0, range, stable) <==> n <= Cycle(limit) + limit
    decreases range
  {
    if n <= limit {
      if n == 0 {
        assert Finishes(n, configured, limit, 0, range, stable, 0);
      } else {
        AfterRead(n, configured, limit, 0, range, stable);
        var (r, s) := Recorded(configured, range, stable);
        assert Finishes(n, configured, limit, n, r, s, 0);
      }
    } else {
      AfterShrink(n, configured, limit, 0, range, stable);
      if Halved(range) > limit {
        EndsIffFromAbove(n, configured, limit, Halved(range), 0);
      } else {
        EndsIff(n, configured, limit, Halved(range), 0);
        SumAntitone(Halved(limit + 1), Halved(range), limit);
        assert Sum(Halved(range), limit) == Halved(range) + Sum(Halved(range) + 1, limit);
      }
    }
  }

  /** A provider that accepts the configured range always lets the reader finish. */
  lemma {:induction false} EndsWithinConfigured(n: nat, configured: nat, limit: nat, pos: nat, range: nat, stable: nat)
    requires configured <= limit && 1 <= range <= configured && stable < SUCCESS_TARGET && pos <= n
    ensures Terminates(n, configured, limit, pos, range, stable)
    decreases n - pos
  {
    if pos == n {
      assert Finishes(n, configured, limit, pos, range, stable, 0);
    } else {
      AfterRead(n, configured, limit, pos, range, stable);
      EndsWithinConfigured(n, configured, limit, pos + Width(n, pos, range), Recorded(configured, range, stable).0,
                           Recorded(configured, range, stable).1);
    }
  }

  /** Exactly when a read ends: the provider accepts the configured range, or the range of blocks fits into one cycle
      and the limit, or into the first climb from an accepted range and the limit. */
  lemma TerminatesIff(n: nat, configured: nat, limit: nat, range: nat, stable: nat)
    requires 1 <= limit && 1 <= range <= configured && stable < SUCCESS_TARGET
    ensures Terminates(n, configured, limit, 0, range, stable) <==>
      configured <= limit || n <= Cycle(limit) + limit || (range <= limit && n <= Climb(limit, range, stable) + limit)
  {
    if configured <= limit {
      EndsWithinConfigured(n, configured, limit, 0, range, stable);
    } else if range <= limit {
      EndsIff(n, configured, limit, range, stable);
    } else {
      EndsIffFromAbove(n, configured, limit, range, stable);
    }
  }
}
