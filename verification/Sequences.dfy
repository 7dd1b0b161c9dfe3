/** Lists taken apart at their last element, as a loop builds them up. */
module Sequences {

  function Init<T>(s: seq<T>): seq<T>
    requires s != []
  {
    s[..|s| - 1]
  }

  function Last<T>(s: seq<T>): T
    requires s != []
  {
    s[|s| - 1]
  }

  lemma {:induction false} Split<T>(s: seq<T>)
    requires s != []
    ensures Init(s) + [Last(s)] == s && |Init(s)| == |s| - 1
  {
  }

  lemma {:induction false} Prefix<T>(s: seq<T>, i: nat)
    requires i < |s|
    ensures s[..i + 1] == s[..i] + [s[i]] && Init(s[..i + 1]) == s[..i] && Last(s[..i + 1]) == s[i]
  {
  }

  lemma {:induction false} Associative<T>(a: seq<T>, b: seq<T>, c: seq<T>)
    ensures (a + b) + c == a + (b + c)
  {
  }

  lemma {:induction false} Whole<T>(s: seq<T>)
    ensures s[..|s|] == s
  {
  }

  lemma {:induction false} NoMembers<T(!new)>(s: seq<T>)
    ensures (forall x :: x !in s) <==> s == []
  {
    if s != [] {
      assert s[0] in s;
    }
  }

  /** A rearrangement of distinct elements has the same, still distinct, elements. */
  lemma {:induction false} Rearranged<T(!new)>(a: seq<T>, b: seq<T>)
    requires multiset(a) == multiset(b) && forall i, j | 0 <= i < j < |a| :: a[i] != a[j]
    ensures forall x :: x in a <==> x in b
    ensures forall i, j | 0 <= i < j < |b| :: b[i] != b[j]
  {
    forall x
      ensures x in a <==> x in b
    {
      assert x in a <==> x in multiset(a);
      assert x in b <==> x in multiset(b);
    }
    forall i, j | 0 <= i < j < |b|
      ensures b[i] != b[j]
    {
      if b[i] == b[j] {
        Twice(b, i, j);
        AtMostOnce(a, b[i]);
        assert false;
      }
    }
  }

  lemma {:induction false} Twice<T>(s: seq<T>, i: nat, j: nat)
    requires i < j < |s| && s[i] == s[j]
    ensures multiset(s)[s[i]] >= 2
  {
    assert s == s[..i] + [s[i]] + s[i + 1..j] + [s[j]] + s[j + 1..];
  }

  lemma {:induction false} AtMostOnce<T>(s: seq<T>, x: T)
    requires forall i, j | 0 <= i < j < |s| :: s[i] != s[j]
    ensures multiset(s)[x] <= 1
  {
    if s != [] {
      Split(s);
      AtMostOnce(Init(s), x);
      if Last(s) == x && multiset(Init(s))[x] > 0 {
        assert false;
      }
    }
  }

  /** Some element of a set: where Go leaves the iteration order of a map open. */
  method AnyOf<T>(s: set<T>) returns (x: T)
    requires s != {}
    ensures x in s
  {
    x :| x in s;
  }
}
