/**
 * A lease's running best finished energies (src/resident.rs): a fixed array
 * kept sorted in place, against the list of everything ever offered.
 */
module TopK {

  const LEASE_TOP_N: nat := 10

  predicate Sorted(s: seq<int>) {
    forall i, j :: 0 <= i <= j < |s| ==> s[i] <= s[j]
  }

  /** How many leading entries are at most `x`. */
  function Point(s: seq<int>, x: int): (p: nat)
    ensures p <= |s|
    ensures forall i :: 0 <= i < p ==> s[i] <= x
    ensures p < |s| ==> s[p] > x
  {
    if s == [] || s[0] > x then 0 else 1 + Point(s[1..], x)
  }

  /** `s` with `x` put in after everything at most `x`. */
  function Insert(s: seq<int>, x: int): (r: seq<int>)
    ensures |r| == |s| + 1
  {
    s[..Point(s, x)] + [x] + s[Point(s, x)..]
  }

  /** The offers in ascending order. */
  function Ordered(offers: seq<int>): seq<int> {
    if offers == [] then [] else Insert(Ordered(offers[..|offers| - 1]), offers[|offers| - 1])
  }

  /** The `LEASE_TOP_N` smallest offers, all of them if there are fewer. */
  function Best(offers: seq<int>): seq<int> {
    var all := Ordered(offers);
    if |all| <= LEASE_TOP_N then all else all[..LEASE_TOP_N]
  }

  lemma InsertSorted(s: seq<int>, x: int)
    requires Sorted(s)
    ensures Sorted(Insert(s, x))
    ensures multiset(Insert(s, x)) == multiset(s) + multiset{x}
  {
    var p := Point(s, x);
    hide Point;
    assert s == s[..p] + s[p..];
    forall i, j | 0 <= i <= j < |Insert(s, x)|
      ensures Insert(s, x)[i] <= Insert(s, x)[j]
    {
      assert p < |s| ==> forall k :: p <= k < |s| ==> s[p] <= s[k];
    }
  }

  /** `Ordered` is what its name says: sorted, and nothing lost or added. */
  lemma {:induction false} OrderedIsSort(offers: seq<int>)
    ensures Sorted(Ordered(offers)) && |Ordered(offers)| == |offers|
    ensures multiset(Ordered(offers)) == multiset(offers)
  {
    if offers != [] {
      OrderedIsSort(offers[..|offers| - 1]);
      InsertSorted(Ordered(offers[..|offers| - 1]), offers[|offers| - 1]);
      assert offers == offers[..|offers| - 1] + [offers[|offers| - 1]];
    }
  }

  /** Any partition point is `Point`. */
  lemma PointUnique(s: seq<int>, x: int, pos: nat)
    requires pos <= |s|
    requires (forall i :: 0 <= i < pos ==> s[i] <= x) && (forall i :: pos <= i < |s| ==> s[i] > x)
    ensures Point(s, x) == pos
  {
    var p := Point(s, x);
    assert p < |s| ==> s[p] > x;
    assert pos < |s| ==> s[pos] > x;
  }

  /** What the shifted array holds. */
  lemma PlacedAt(held: seq<int>, x: int, pos: nat, now: seq<int>, end: nat)
    requires pos == Point(held, x) <= end <= |held| && end < |now|
    requires forall j :: 0 <= j < pos ==> now[j] == held[j]
    requires now[pos] == x && forall j :: pos < j <= end ==> now[j] == held[j - 1]
    ensures now[..end + 1] == Insert(held, x)[..end + 1]
  {
    hide Point;
  }

  lemma InsertTake(s: seq<int>, x: int, n: nat)
    requires Sorted(s) && 0 < n <= |s|
    ensures s[n - 1] <= x ==> Insert(s, x)[..n] == s[..n]
    ensures Insert(s, x)[..n] == Insert(s[..n], x)[..n]
  {
    hide Point;
    var p, q := Point(s, x), Point(s[..n], x);
    assert p < n ==> s[p] > x && s[p] <= s[n - 1];
    if p < n {
      forall i | p <= i < n
        ensures s[..n][i] > x
      {
        assert s[p] <= s[i];
      }
      PointUnique(s[..n], x, p);
    } else {
      PointUnique(s[..n], x, n);
    }
  }

  lemma OrderedNext(offers: seq<int>, x: int)
    ensures Ordered(offers + [x]) == Insert(Ordered(offers), x)
  {
    hide Insert;
    assert (offers + [x])[..|offers|] == offers;
  }

  /** Keeping only the best so far loses nothing: one more offer changes the
      kept list exactly as it changes the full one. */
  lemma BestStep(offers: seq<int>, x: int)
    ensures var kept := Best(offers);
            && Sorted(kept)
            && (|kept| < LEASE_TOP_N ==> Best(offers + [x]) == Insert(kept, x))
            && (|kept| == LEASE_TOP_N && x < kept[LEASE_TOP_N - 1] ==>
                  Best(offers + [x]) == Insert(kept, x)[..LEASE_TOP_N])
            && (|kept| == LEASE_TOP_N && x >= kept[LEASE_TOP_N - 1] ==> Best(offers + [x]) == kept)
  {
    hide Ordered, Insert;
    var all := Ordered(offers);
    OrderedIsSort(offers);
    OrderedNext(offers, x);
    if |all| >= LEASE_TOP_N {
      InsertTake(all, x, LEASE_TOP_N);
    }
  }

  /** The kept energies are offers, and every dropped offer is no better than
      any kept one. */
  lemma BestAreSmallest(offers: seq<int>)
    ensures |Best(offers)| == if |offers| <= LEASE_TOP_N then |offers| else LEASE_TOP_N
    ensures Sorted(Best(offers))
    ensures exists dropped: seq<int> ::
              && multiset(offers) == multiset(Best(offers)) + multiset(dropped)
              && forall i, j :: 0 <= i < |Best(offers)| && 0 <= j < |dropped| ==> Best(offers)[i] <= dropped[j]
  {
    var all, kept := Ordered(offers), Best(offers);
    OrderedIsSort(offers);
    hide Ordered;
    var dropped := all[|kept|..];
    assert all == kept + dropped;
    assert multiset(offers) == multiset(kept) + multiset(dropped);
    forall i, j | 0 <= i < |kept| && 0 <= j < |dropped|
      ensures kept[i] <= dropped[j]
    {
      assert kept[i] == all[i] && dropped[j] == all[|kept| + j];
    }
  }

  /** Whether one more offer would be among the best kept. */
  predicate Enters(offers: seq<int>, x: int) {
    |Best(offers)| < LEASE_TOP_N || x < Best(offers)[LEASE_TOP_N - 1]
  }

  /** `LEASE_TOP_N` offers are no worse than `x`. */
  predicate Beaten(offers: seq<int>, x: int) {
    |Best(offers)| == LEASE_TOP_N && forall i :: 0 <= i < LEASE_TOP_N ==> Best(offers)[i] <= x
  }

  /** An offer that does not enter is beaten. */
  lemma EntersOrBeaten(offers: seq<int>, x: int)
    ensures Enters(offers, x) || Beaten(offers + [x], x)
  {
    BestStep(offers, x);
    hide Best;
    BestAreSmallest(offers);
  }

  /** And stays so, whatever is offered later. */
  lemma BeatenStays(offers: seq<int>, x: int, more: int)
    requires Beaten(offers, x)
    ensures Beaten(offers + [more], x)
  {
    BestStep(offers, more);
    BestAreSmallest(offers + [more]);
    hide Best;
  }

  class LeaseTopK {
    const energies: array<int>
    var len: nat
    ghost var offers: seq<int>

    ghost predicate Valid()
      reads this, energies
    {
      && energies.Length == LEASE_TOP_N
      && len <= LEASE_TOP_N
      && energies[..len] == Best(offers)
    }

    constructor ()
      ensures Valid() && offers == [] && fresh(energies)
    {
      energies := new int[LEASE_TOP_N];
      len, offers := 0, [];
    }

    /** The first position whose energy is above `x`. */
    method PartitionPoint(x: int) returns (pos: nat)
      requires Valid() && Sorted(energies[..len])
      ensures pos <= len
      ensures (forall i :: 0 <= i < pos ==> energies[i] <= x) && (forall i :: pos <= i < len ==> energies[i] > x)
    {
      var lo, hi := 0, len;
      while lo < hi
        invariant lo <= hi <= len
        invariant forall i :: 0 <= i < lo ==> energies[i] <= x
        invariant forall i :: hi <= i < len ==> energies[i] > x
      {
        var mid := (lo + hi) / 2;
        if energies[mid] <= x {
          assert forall i :: 0 <= i <= mid ==> energies[..len][i] <= energies[..len][mid];
          lo := mid + 1;
        } else {
          assert forall i :: mid <= i < len ==> energies[..len][mid] <= energies[..len][i];
          hi := mid;
        }
      }
      pos := lo;
    }

    /** Put `x` in its place among the held energies, moving the ones after it
        up to index `end`. */
    method Place(x: int, end: nat)
      requires Valid() && Sorted(energies[..len]) && end < LEASE_TOP_N
      requires end == len || (end + 1 == len && x < energies[end])
      modifies energies
      ensures energies[..end + 1] == Insert(old(energies[..len]), x)[..end + 1]
    {
      hide Ordered, Best, Insert, Sorted, Point;
      ghost var held := energies[..len];
      var pos := PartitionPoint(x);
      PointUnique(held, x, pos);
      var i := end;
      while i > pos
        invariant pos <= i <= end
        invariant forall j :: 0 <= j <= i && j < |held| ==> energies[j] == held[j]
        invariant forall j :: i < j <= end ==> energies[j] == held[j - 1]
      {
        energies[i] := energies[i - 1];
        i := i - 1;
      }
      energies[pos] := x;
      PlacedAt(held, x, pos, energies[..], end);
    }

    /**
     * Offer a finished energy. It enters exactly when fewer than
     * `LEASE_TOP_N` are held or it beats the worst one held.
     */
    method Offer(energy: int) returns (enters: bool)
      requires Valid()
      modifies this, energies
      ensures Valid() && offers == old(offers) + [energy]
      ensures enters <==> old(len) < LEASE_TOP_N || energy < old(energies[LEASE_TOP_N - 1])
      ensures enters <==> Enters(old(offers), energy)
      ensures len == if old(len) < LEASE_TOP_N then old(len) + 1 else LEASE_TOP_N
    {
      BestStep(offers, energy);
      if len < LEASE_TOP_N {
        Place(energy, len);
        len := len + 1;
        enters := true;
      } else if energy < energies[LEASE_TOP_N - 1] {
        Place(energy, LEASE_TOP_N - 1);
        enters := true;
      } else {
        enters := false;
      }
      offers := offers + [energy];
    }
  }
}
