/** Ascending order by a key, for the places where the program calls a sort. */
module Sorting {

  ghost predicate ByKey<T>(s: seq<T>, key: T -> real) {
    forall i, j :: 0 <= i <= j < |s| ==> key(s[i]) <= key(s[j])
  }

  function Place<T>(s: seq<T>, x: T, key: T -> real): (r: seq<T>)
    ensures |r| == |s| + 1
  {
    if s == [] || key(x) < key(s[0]) then [x] + s else [s[0]] + Place(s[1..], x, key)
  }

  function SortBy<T>(s: seq<T>, key: T -> real): (r: seq<T>)
    ensures |r| == |s|
  {
    if s == [] then [] else Place(SortBy(s[1..], key), s[0], key)
  }

  lemma {:induction false} PlaceKeeps<T>(s: seq<T>, x: T, key: T -> real)
    requires ByKey(s, key)
    ensures ByKey(Place(s, x, key), key)
    ensures multiset(Place(s, x, key)) == multiset(s) + multiset{x}
  {
    if s != [] && key(x) >= key(s[0]) {
      PlaceKeeps(s[1..], x, key);
      assert s == [s[0]] + s[1..];
      var rest := Place(s[1..], x, key);
      hide Place;
      forall i | 0 <= i < |rest|
        ensures key(s[0]) <= key(rest[i])
      {
        assert rest[i] in multiset(rest);
      }
    }
  }

  /** Sorted, and nothing lost or added. */
  lemma {:induction false} SortBySorts<T>(s: seq<T>, key: T -> real)
    ensures ByKey(SortBy(s, key), key) && multiset(SortBy(s, key)) == multiset(s)
  {
    if s != [] {
      SortBySorts(s[1..], key);
      PlaceKeeps(SortBy(s[1..], key), s[0], key);
      assert s == [s[0]] + s[1..];
    }
  }
}
