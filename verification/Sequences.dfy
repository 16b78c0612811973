/** Removal from a list, as `List.remove` does it. */
module Sequences {

  /** `a` consists of elements of `s`, in their order. */
  ghost predicate InOrder<T>(a: seq<T>, s: seq<T>) {
    exists at: seq<nat> :: Places(a, s, at)
  }

  /** The position in `s` of each element of `a`. */
  ghost predicate Places<T>(a: seq<T>, s: seq<T>, at: seq<nat>) {
    && |at| == |a|
    && (forall i :: 0 <= i < |a| ==> at[i] < |s| && s[at[i]] == a[i])
    && (forall i, j :: 0 <= i < j < |a| ==> at[i] < at[j])
  }

  lemma InOrderNext<T>(a: seq<T>, s: seq<T>, x: T)
    requires InOrder(a, s)
    ensures InOrder(a, s + [x]) && InOrder(a + [x], s + [x])
  {
    var at: seq<nat> :| Places(a, s, at);
    assert Places(a, s + [x], at);
    assert Places(a + [x], s + [x], at + [|s|]);
  }

  lemma NothingInOrder<T>(s: seq<T>)
    ensures InOrder([], s)
  {
    assert Places([], s, []);
  }

  lemma AllInOrder<T>(s: seq<T>)
    ensures InOrder(s, s)
  {
    assert Places(s, s, seq(|s|, i => i));
  }

  /** The list without the first occurrence of `x`. */
  function RemoveFirst<T(==)>(s: seq<T>, x: T): seq<T> {
    if s == [] then [] else if s[0] == x then s[1..] else [s[0]] + RemoveFirst(s[1..], x)
  }

  lemma {:induction false} RemoveFirstBag<T>(s: seq<T>, x: T)
    ensures multiset(RemoveFirst(s, x)) == multiset(s) - multiset{x}
  {
    if s != [] {
      assert s == [s[0]] + s[1..];
      if s[0] != x {
        RemoveFirstBag(s[1..], x);
      }
    }
  }

  lemma {:induction false} RemoveAbsent<T>(s: seq<T>, x: T)
    requires x !in s
    ensures RemoveFirst(s, x) == s
  {
    if s != [] {
      RemoveAbsent(s[1..], x);
      assert s == [s[0]] + s[1..];
    }
  }

  lemma InOrderBehind<T>(a: seq<T>, s: seq<T>, x: T)
    requires InOrder(a, s)
    ensures InOrder([x] + a, [x] + s)
  {
    var at: seq<nat> :| Places(a, s, at);
    var shifted := seq(|at|, i requires 0 <= i < |at| => at[i] + 1);
    assert Places([x] + a, [x] + s, [0] + shifted);
  }

  lemma {:induction false} RemoveFirstInOrder<T>(s: seq<T>, x: T)
    ensures InOrder(RemoveFirst(s, x), s)
  {
    if s == [] {
      NothingInOrder(s);
    } else {
      assert s == [s[0]] + s[1..];
      if s[0] == x {
        assert Places(s[1..], s, seq(|s| - 1, i => i + 1));
      } else {
        RemoveFirstInOrder(s[1..], x);
        InOrderBehind(RemoveFirst(s[1..], x), s[1..], s[0]);
      }
    }
  }

  lemma RemoveFirstMembers<T>(s: seq<T>, x: T)
    ensures multiset(RemoveFirst(s, x)) == multiset(s) - multiset{x}
    ensures forall y :: y in RemoveFirst(s, x) ==> y in s
    ensures |RemoveFirst(s, x)| == |s| - if x in s then 1 else 0
  {
    hide RemoveFirst;
    RemoveFirstBag(s, x);
    var r := RemoveFirst(s, x);
    assert |r| == |multiset(r)| && (x in s <==> x in multiset(s));
    forall y | y in r
      ensures y in s
    {
      assert y in multiset(r);
    }
  }
}
