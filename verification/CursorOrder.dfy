/** Chain cursors, their order, and sorting by cursor. */
module CursorOrder {

  datatype Cursor = Cursor(block: nat, tx: nat, log: nat)

  function Compare(a: Cursor, b: Cursor): int {
    if a.block != b.block then (if a.block < b.block then -1 else 1)
    else if a.tx != b.tx then a.tx - b.tx
    else a.log - b.log
  }

  predicate Before(a: Cursor, b: Cursor) {
    Compare(a, b) < 0
  }

  /** Stable sort by the cursor that `key` assigns. */
  function Sort<T>(s: seq<T>, key: T -> Cursor): (r: seq<T>) {
    if s == [] then [] else Insert(s[0], Sort(s[1..], key), key)
  }

  function Insert<T>(x: T, s: seq<T>, key: T -> Cursor): (r: seq<T>) {
    if s == [] || !Before(key(s[0]), key(x)) then [x] + s else [s[0]] + Insert(x, s[1..], key)
  }

  ghost predicate Ordered<T>(s: seq<T>, key: T -> Cursor) {
    forall i, k :: 0 <= i < k < |s| ==> !Before(key(s[k]), key(s[i]))
  }

  ghost predicate Strict<T>(s: seq<T>, key: T -> Cursor) {
    forall i, k :: 0 <= i < k < |s| ==> Before(key(s[i]), key(s[k]))
  }

  lemma {:induction false} InsertMembers<T>(x: T, s: seq<T>, key: T -> Cursor)
    ensures multiset(Insert(x, s, key)) == multiset{x} + multiset(s)
  {
    if s == [] || !Before(key(s[0]), key(x)) {
      assert multiset([x] + s) == multiset{x} + multiset(s);
    } else {
      assert s == [s[0]] + s[1..];
      InsertMembers(x, s[1..], key);
    }
  }

  lemma {:induction false} InsertOrdered<T>(x: T, s: seq<T>, key: T -> Cursor)
    requires Ordered(s, key)
    ensures Ordered(Insert(x, s, key), key)
  {
    if s != [] && Before(key(s[0]), key(x)) {
      InsertOrdered(x, s[1..], key);
      var t := Insert(x, s[1..], key);
      InsertMembers(x, s[1..], key);
      forall k | 0 <= k < |t| ensures !Before(key(t[k]), key(s[0])) {
        assert t[k] in multiset(t);
        assert t[k] == x || t[k] in s[1..];
      }
    }
  }

  lemma {:induction false} SortOrdered<T>(s: seq<T>, key: T -> Cursor)
    ensures Ordered(Sort(s, key), key)
    ensures multiset(Sort(s, key)) == multiset(s)
  {
    if s != [] {
      assert s == [s[0]] + s[1..];
      SortOrdered(s[1..], key);
      InsertOrdered(s[0], Sort(s[1..], key), key);
      InsertMembers(s[0], Sort(s[1..], key), key);
    }
  }

  lemma SortMembers<T>(s: seq<T>, key: T -> Cursor, x: T)
    ensures x in Sort(s, key) <==> x in s
  {
    SortOrdered(s, key);
    assert x in multiset(s) <==> x in multiset(Sort(s, key));
  }

  /** A strictly ordered sequence is determined by its elements. */
  lemma {:induction false} StrictUnique<T>(a: seq<T>, b: seq<T>, key: T -> Cursor)
    requires Strict(a, key) && Strict(b, key)
    requires forall x :: x in a <==> x in b
    ensures a == b
  {
    assert b != [] ==> b[0] in a;
    if a != [] {
      assert a[0] in b;
      assert a[0] == b[0];
      forall x ensures x in a[1..] <==> x in b[1..] {
        TailMembers(a, key, x);
        TailMembers(b, key, x);
      }
      StrictUnique(a[1..], b[1..], key);
      assert a == [a[0]] + a[1..] && b == [b[0]] + b[1..];
    }
  }

  lemma TailMembers<T>(a: seq<T>, key: T -> Cursor, x: T)
    requires a != [] && Strict(a, key)
    ensures x in a[1..] <==> x in a && x != a[0]
  {
  }

  ghost predicate DistinctKeys<T>(s: seq<T>, key: T -> Cursor) {
    forall i, k :: 0 <= i < k < |s| ==> key(s[i]) != key(s[k])
  }

  lemma {:induction false} InsertStrict<T>(x: T, s: seq<T>, key: T -> Cursor)
    requires Strict(s, key) && forall i :: 0 <= i < |s| ==> key(s[i]) != key(x)
    ensures Strict(Insert(x, s, key), key)
    ensures forall i :: 0 <= i < |Insert(x, s, key)| ==> Insert(x, s, key)[i] == x || Insert(x, s, key)[i] in s
  {
    if s != [] && Before(key(s[0]), key(x)) {
      InsertStrict(x, s[1..], key);
    }
  }

  /** Elements with different cursors are sorted into strictly increasing order. */
  lemma {:induction false} SortStrict<T>(s: seq<T>, key: T -> Cursor)
    requires DistinctKeys(s, key)
    ensures Strict(Sort(s, key), key)
  {
    if s != [] {
      SortStrict(s[1..], key);
      var t := Sort(s[1..], key);
      forall i | 0 <= i < |t| ensures key(t[i]) != key(s[0]) {
        SortMembers(s[1..], key, t[i]);
      }
      InsertStrict(s[0], t, key);
    }
  }

  function Filter<T>(s: seq<T>, p: T -> bool): seq<T> {
    if s == [] then [] else
      var n := |s| - 1;
      Filter(s[..n], p) + if p(s[n]) then [s[n]] else []
  }

  lemma {:induction false} FilterMember<T>(s: seq<T>, p: T -> bool, x: T)
    ensures x in Filter(s, p) <==> x in s && p(x)
  {
    if s != [] {
      var n := |s| - 1;
      FilterMember(s[..n], p, x);
      assert s == s[..n] + [s[n]];
    }
  }

  /** Filtering keeps strict order. */
  lemma {:induction false} FilterStrict<T>(s: seq<T>, p: T -> bool, key: T -> Cursor)
    requires Strict(s, key)
    ensures Strict(Filter(s, p), key)
  {
    if s != [] {
      var n := |s| - 1;
      FilterStrict(s[..n], p, key);
      var f := Filter(s[..n], p);
      forall i | 0 <= i < |f| ensures Before(key(f[i]), key(s[n])) {
        FilterMember(s[..n], p, f[i]);
      }
    }
  }

  lemma {:induction false} FilterConcat<T>(a: seq<T>, b: seq<T>, p: T -> bool)
    ensures Filter(a + b, p) == Filter(a, p) + Filter(b, p)
  {
    if b == [] {
      assert a + b == a;
    } else {
      var n := |b| - 1;
      assert (a + b)[..|a + b| - 1] == a + b[..n];
      FilterConcat(a, b[..n], p);
    }
  }

  lemma StrictConcat<T>(a: seq<T>, b: seq<T>, key: T -> Cursor)
    requires Strict(a, key) && Strict(b, key)
    requires forall i, k :: 0 <= i < |a| && 0 <= k < |b| ==> Before(key(a[i]), key(b[k]))
    ensures Strict(a + b, key)
  {
    var s := a + b;
    forall i, k | 0 <= i < k < |s| ensures Before(key(s[i]), key(s[k])) {
      if i < |a| <= k {
        assert s[i] == a[i] && s[k] == b[k - |a|];
      }
    }
  }

  /** The same cursor means the same element. */
  ghost predicate Faithful<T>(s: seq<T>, key: T -> Cursor) {
    forall i, k :: 0 <= i < |s| && 0 <= k < |s| && key(s[i]) == key(s[k]) ==> s[i] == s[k]
  }

  lemma SameHead<T>(a: seq<T>, b: seq<T>, key: T -> Cursor)
    requires Ordered(a, key) && Ordered(b, key) && multiset(a) == multiset(b) && Faithful(a, key) && a != []
    ensures b != [] && a[0] == b[0]
  {
    assert a[0] in multiset(b);
    var i :| 0 <= i < |b| && b[i] == a[0];
    assert b[0] in multiset(a);
    var k :| 0 <= k < |a| && a[k] == b[0];
    assert key(a[0]) == key(b[0]) by {
      assert k > 0 ==> !Before(key(a[k]), key(a[0]));
      assert i > 0 ==> !Before(key(b[i]), key(b[0]));
    }
  }

  lemma TailMultiset<T>(a: seq<T>)
    requires a != []
    ensures multiset(a[1..]) == multiset(a) - multiset{a[0]}
  {
    assert a == [a[0]] + a[1..];
  }

  lemma Tails<T>(a: seq<T>, b: seq<T>, key: T -> Cursor)
    requires Ordered(a, key) && Ordered(b, key) && multiset(a) == multiset(b) && Faithful(a, key) && a != []
    ensures b != [] && a[0] == b[0] && Ordered(a[1..], key) && Ordered(b[1..], key) && Faithful(a[1..], key)
    ensures multiset(a[1..]) == multiset(b[1..])
  {
    SameHead(a, b, key);
    TailMultiset(a);
    TailMultiset(b);
  }

  lemma HeadTail<T>(a: seq<T>, b: seq<T>)
    requires a != [] && b != [] && a[0] == b[0] && a[1..] == b[1..]
    ensures a == b
  {
    assert a == [a[0]] + a[1..];
    assert b == [b[0]] + b[1..];
  }

  /** There is only one way to put a collection in order. */
  lemma {:induction false} OrderedUnique<T>(a: seq<T>, b: seq<T>, key: T -> Cursor)
    requires Ordered(a, key) && Ordered(b, key) && multiset(a) == multiset(b) && Faithful(a, key)
    ensures a == b
  {
    if a == [] {
      assert |b| == |multiset(b)|;
    } else {
      Tails(a, b, key);
      OrderedUnique(a[1..], b[1..], key);
      HeadTail(a, b);
    }
  }
}
