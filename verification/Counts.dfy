/** How often something occurs in a sequence. */
module Counts {

  function Count<T(==)>(s: seq<T>, x: T): nat {
    multiset(s)[x]
  }

  lemma CountAppend<T>(s: seq<T>, y: T, x: T)
    ensures Count(s + [y], x) == Count(s, x) + if y == x then 1 else 0
  {
  }

  lemma CountHead<T>(s: seq<T>, x: T)
    requires s != []
    ensures Count(s, x) == Count(s[1..], x) + if s[0] == x then 1 else 0
  {
    assert s == [s[0]] + s[1..];
  }

  lemma CountConcat<T>(a: seq<T>, b: seq<T>, x: T)
    ensures Count(a + b, x) == Count(a, x) + Count(b, x)
  {
  }

  lemma CountTotal<T>(a: seq<T>, b: seq<T>)
    requires forall x: T :: Count(a, x) <= Count(b, x)
    ensures |a| <= |b|
  {
    forall x: T
      ensures multiset(a)[x] <= multiset(b)[x]
    {
      assert Count(a, x) <= Count(b, x);
    }
    assert multiset(a) <= multiset(b);
    assert multiset(b) == multiset(a) + (multiset(b) - multiset(a));
  }

  /** Sequences with the same counts hold the same things. */
  lemma SameCounts<T>(a: seq<T>, b: seq<T>)
    requires forall x: T :: Count(a, x) == Count(b, x)
    ensures multiset(a) == multiset(b)
  {
    forall x: T
      ensures multiset(a)[x] == multiset(b)[x]
    {
      assert Count(a, x) == Count(b, x);
    }
  }
}
