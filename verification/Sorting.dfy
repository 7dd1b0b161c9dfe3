/** Ordered rearrangements, as Go's `sort` package produces them. */
module Sorting {

  /** `less` can order a list: it is asymmetric and its complement is transitive. */
  ghost predicate StrictWeak<T(!new)>(less: (T, T) -> bool) {
    && (forall a, b :: less(a, b) ==> !less(b, a))
    && (forall a, b, c :: !less(a, b) && !less(b, c) ==> !less(a, c))
  }

  ghost predicate Ordered<T>(s: seq<T>, less: (T, T) -> bool) {
    forall i, j | 0 <= i < j < |s| :: !less(s[j], s[i])
  }

  /** Puts x behind every element it is not less than. */
  function Insert<T>(s: seq<T>, x: T, less: (T, T) -> bool): seq<T> {
    if s == [] then [x]
    else if less(x, s[|s| - 1]) then Insert(s[..|s| - 1], x, less) + [s[|s| - 1]]
    else s + [x]
  }

  /** The stable sort: equal elements keep their order. */
  function Sorted<T>(s: seq<T>, less: (T, T) -> bool): seq<T> {
    if s == [] then [] else Insert(Sorted(s[..|s| - 1], less), s[|s| - 1], less)
  }

  lemma {:induction false} InsertKeeps<T>(s: seq<T>, x: T, less: (T, T) -> bool)
    ensures multiset(Insert(s, x, less)) == multiset(s) + multiset{x}
  {
    if s != [] && less(x, s[|s| - 1]) {
      InsertKeeps(s[..|s| - 1], x, less);
      assert s == s[..|s| - 1] + [s[|s| - 1]];
    }
  }

  lemma {:induction false} InsertOrders<T(!new)>(s: seq<T>, x: T, less: (T, T) -> bool)
    requires StrictWeak(less) && Ordered(s, less)
    ensures Ordered(Insert(s, x, less), less)
    ensures forall y | y in Insert(s, x, less) :: y == x || y in s
  {
    if s != [] && less(x, s[|s| - 1]) {
      var init, last := s[..|s| - 1], s[|s| - 1];
      InsertOrders(init, x, less);
      var t := Insert(init, x, less);
      forall i | 0 <= i < |t|
        ensures !less(last, t[i])
      {
        if t[i] != x {
          assert t[i] in t;
          var k :| 0 <= k < |init| && init[k] == t[i];
        }
      }
    } else if s != [] {
      forall i | 0 <= i < |s|
        ensures !less(x, s[i])
      {
        assert i < |s| - 1 ==> !less(s[|s| - 1], s[i]);
      }
    }
  }

  lemma {:induction false} SortedIs<T(!new)>(s: seq<T>, less: (T, T) -> bool)
    requires StrictWeak(less)
    ensures multiset(Sorted(s, less)) == multiset(s) && Ordered(Sorted(s, less), less)
  {
    if s != [] {
      var init, last := s[..|s| - 1], s[|s| - 1];
      SortedIs(init, less);
      InsertKeeps(Sorted(init, less), last, less);
      InsertOrders(Sorted(init, less), last, less);
      assert s == init + [last];
    }
  }

  /** Any two different members are ordered one way. */
  ghost predicate Decided<T(!new)>(s: seq<T>, less: (T, T) -> bool) {
    forall x, y | x in s && y in s && x != y :: less(x, y) || less(y, x)
  }

  lemma {:induction false} InitMultiset<T>(s: seq<T>)
    requires s != []
    ensures multiset(s[..|s| - 1]) == multiset(s) - multiset{s[|s| - 1]}
  {
    assert s == s[..|s| - 1] + [s[|s| - 1]];
  }

  lemma {:induction false} InitOrdered<T(!new)>(s: seq<T>, less: (T, T) -> bool)
    requires s != []
    ensures Ordered(s, less) ==> Ordered(s[..|s| - 1], less)
    ensures Decided(s, less) ==> Decided(s[..|s| - 1], less)
  {
  }

  lemma {:induction false} SameEnds<T>(a: seq<T>, b: seq<T>)
    requires a != [] && b != [] && a[..|a| - 1] == b[..|b| - 1] && a[|a| - 1] == b[|b| - 1]
    ensures a == b
  {
    assert a == a[..|a| - 1] + [a[|a| - 1]] && b == b[..|b| - 1] + [b[|b| - 1]];
  }

  /** A decided list has only one ordered rearrangement. */
  lemma {:induction false} OrderedOnce<T(!new)>(a: seq<T>, b: seq<T>, less: (T, T) -> bool)
    requires multiset(a) == multiset(b) && Ordered(a, less) && Ordered(b, less) && Decided(a, less)
    ensures a == b
    decreases |a|
  {
    assert |a| == |multiset(a)| && |b| == |multiset(b)|;
    if a != [] {
      LastAgree(a, b, less);
      InitMultiset(a);
      InitMultiset(b);
      InitOrdered(a, less);
      InitOrdered(b, less);
      hide *;
      OrderedOnce(a[..|a| - 1], b[..|b| - 1], less);
      SameEnds(a, b);
    }
  }

  lemma {:induction false} LastAgree<T(!new)>(a: seq<T>, b: seq<T>, less: (T, T) -> bool)
    requires multiset(a) == multiset(b) && Ordered(a, less) && Ordered(b, less) && a != [] && b != []
    requires Decided(a, less)
    ensures a[|a| - 1] == b[|b| - 1]
  {
    var x, y := a[|a| - 1], b[|b| - 1];
    assert x in multiset(a) && x in multiset(b) && y in multiset(b) && y in multiset(a);
    var i :| 0 <= i < |b| && b[i] == x;
    var j :| 0 <= j < |a| && a[j] == y;
    assert i < |b| - 1 ==> !less(y, x);
    assert j < |a| - 1 ==> !less(x, y);
  }
}
