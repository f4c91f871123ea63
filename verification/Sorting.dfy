/** Stable sorting by a two-part key, and why a strictly sorted sequence is determined by its elements. */
module Sorting {
  import opened Prelude

  datatype Key = Key(first: Id, second: Id)

  predicate Less(a: Key, b: Key) {
    a.first < b.first || (a.first == b.first && a.second < b.second)
  }

  /** Inserts x behind every element whose key is not greater. */
  function InsertBy<T>(key: T -> Key, xs: seq<T>, x: T): (r: seq<T>) {
    if xs == [] || !Less(key(x), key(xs[|xs| - 1])) then xs + [x]
    else InsertBy(key, xs[..|xs| - 1], x) + [xs[|xs| - 1]]
  }

  function SortBy<T>(key: T -> Key, xs: seq<T>): (r: seq<T>) {
    if xs == [] then [] else InsertBy(key, SortBy(key, xs[..|xs| - 1]), xs[|xs| - 1])
  }

  /** Each key is smaller than the next. */
  ghost predicate Ascending<T>(key: T -> Key, xs: seq<T>) {
    forall i, j :: 0 <= i < j < |xs| ==> Less(key(xs[i]), key(xs[j]))
  }

  /** Different positions carry different keys. */
  ghost predicate KeysDistinct<T>(key: T -> Key, xs: seq<T>) {
    forall i, j :: 0 <= i < j < |xs| ==> key(xs[i]) != key(xs[j])
  }

  lemma {:induction false} InsertMembers<T>(key: T -> Key, xs: seq<T>, x: T)
    ensures multiset(InsertBy(key, xs, x)) == multiset(xs) + multiset{x}
  {
    if xs != [] && Less(key(x), key(xs[|xs| - 1])) {
      InsertMembers(key, xs[..|xs| - 1], x);
      assert xs == xs[..|xs| - 1] + [xs[|xs| - 1]];
    }
  }

  lemma {:induction false} SortMembers<T>(key: T -> Key, xs: seq<T>)
    ensures multiset(SortBy(key, xs)) == multiset(xs)
  {
    if xs != [] {
      SortMembers(key, xs[..|xs| - 1]);
      InsertMembers(key, SortBy(key, xs[..|xs| - 1]), xs[|xs| - 1]);
      assert xs == xs[..|xs| - 1] + [xs[|xs| - 1]];
    }
  }

  lemma MultisetMembers<T>(a: seq<T>, b: seq<T>)
    requires multiset(a) == multiset(b)
    ensures forall x :: x in a <==> x in b
    ensures |a| == |b|
  {
    assert forall x :: x in a <==> x in multiset(a);
    assert forall x :: x in b <==> x in multiset(b);
    assert |multiset(a)| == |a| && |multiset(b)| == |b|;
  }

  lemma SortElements<T>(key: T -> Key, xs: seq<T>, x: T)
    ensures x in SortBy(key, xs) <==> x in xs
    ensures |SortBy(key, xs)| == |xs|
  {
    SortMembers(key, xs);
    MultisetMembers(SortBy(key, xs), xs);
  }

  lemma InsertElements<T>(key: T -> Key, xs: seq<T>, x: T, y: T)
    ensures y in InsertBy(key, xs, x) <==> y in xs || y == x
  {
    InsertMembers(key, xs, x);
    assert multiset(InsertBy(key, xs, x)) == multiset(xs + [x]);
    MultisetMembers(InsertBy(key, xs, x), xs + [x]);
  }

  lemma {:induction false} InsertAscending<T>(key: T -> Key, xs: seq<T>, x: T)
    requires Ascending(key, xs) && forall y :: y in xs ==> key(y) != key(x)
    ensures Ascending(key, InsertBy(key, xs, x))
  {
    if xs != [] && Less(key(x), key(xs[|xs| - 1])) {
      var init := xs[..|xs| - 1];
      InsertAscending(key, init, x);
      var r := InsertBy(key, init, x);
      forall i | 0 <= i < |r| ensures Less(key(r[i]), key(xs[|xs| - 1])) {
        assert r[i] in r;
        InsertElements(key, init, x, r[i]);
        if r[i] != x {
          var j :| 0 <= j < |init| && init[j] == r[i];
          assert Less(key(xs[j]), key(xs[|xs| - 1]));
        }
      }
    } else if xs != [] {
      assert xs[|xs| - 1] in xs;
    }
  }

  /** With distinct keys the result is strictly sorted. */
  lemma {:induction false} SortAscending<T>(key: T -> Key, xs: seq<T>)
    requires KeysDistinct(key, xs)
    ensures Ascending(key, SortBy(key, xs))
  {
    if xs != [] {
      var init := xs[..|xs| - 1];
      SortAscending(key, init);
      forall y | y in SortBy(key, init) ensures key(y) != key(xs[|xs| - 1]) {
        SortElements(key, init, y);
        var j :| 0 <= j < |init| && init[j] == y;
        assert key(xs[j]) != key(xs[|xs| - 1]);
      }
      InsertAscending(key, SortBy(key, init), xs[|xs| - 1]);
    }
  }

  /** Two strictly sorted sequences with the same elements are the same sequence. */
  lemma {:induction false} AscendingUnique<T>(key: T -> Key, a: seq<T>, b: seq<T>)
    requires Ascending(key, a) && Ascending(key, b) && forall x :: x in a <==> x in b
    ensures a == b
  {
    if a == [] {
      if b != [] { SameElements(b, a, b[0]); }
    } else {
      assert a[0] in b;
      var x, y := a[|a| - 1], b[|b| - 1];
      LastIsSame(key, a, b);
      var a', b' := a[..|a| - 1], b[..|b| - 1];
      forall z ensures z in a' <==> z in b' {
        InitElements(key, a, z);
        InitElements(key, b, z);
      }
      AscendingUnique(key, a', b');
      assert a == a' + [x] && b == b' + [y];
    }
  }

  lemma SameElements<T>(b: seq<T>, a: seq<T>, x: T)
    requires x in b && forall x :: x in a <==> x in b
    ensures x in a
  {
  }

  lemma LastIsSame<T>(key: T -> Key, a: seq<T>, b: seq<T>)
    requires Ascending(key, a) && Ascending(key, b) && (forall x :: x in a <==> x in b) && a != [] && b != []
    ensures a[|a| - 1] == b[|b| - 1]
  {
    var x, y := a[|a| - 1], b[|b| - 1];
    assert x in b && y in a;
    var i :| 0 <= i < |b| && b[i] == x;
    var j :| 0 <= j < |a| && a[j] == y;
  }

  lemma InitElements<T>(key: T -> Key, a: seq<T>, z: T)
    requires Ascending(key, a) && a != []
    ensures z in a[..|a| - 1] <==> z in a && z != a[|a| - 1]
  {
    assert a == a[..|a| - 1] + [a[|a| - 1]];
  }

  /** Sorting does not depend on the order of presentation. */
  lemma SortPermutation<T>(key: T -> Key, a: seq<T>, b: seq<T>)
    requires KeysDistinct(key, a) && KeysDistinct(key, b) && forall x :: x in a <==> x in b
    ensures SortBy(key, a) == SortBy(key, b)
  {
    SortAscending(key, a);
    SortAscending(key, b);
    forall x ensures x in SortBy(key, a) <==> x in SortBy(key, b) {
      SortElements(key, a, x);
      SortElements(key, b, x);
    }
    AscendingUnique(key, SortBy(key, a), SortBy(key, b));
  }
}
