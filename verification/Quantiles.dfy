/**
 * The five-marker running quantile of src/cutoff.rs (Jain and Chlamtac's P²),
 * over the reals. `Step` is one observation; `Markers.Holds` is what every
 * stream of at least five observations leaves true.
 */
module Quantiles {
  import opened Sorting
  import opened Wrappers

  predicate Ascending(s: seq<real>) {
    forall i, j :: 0 <= i <= j < |s| ==> s[i] <= s[j]
  }

  predicate IsLeast(x: real, s: seq<real>) {
    x in s && forall y :: y in s ==> x <= y
  }

  predicate IsGreatest(x: real, s: seq<real>) {
    x in s && forall y :: y in s ==> y <= x
  }

  /** Ascending order. */
  function Sort(s: seq<real>): (r: seq<real>)
    ensures |r| == |s|
  {
    SortBy(s, (x: real) => x)
  }

  lemma SortSorts(s: seq<real>)
    ensures Ascending(Sort(s)) && multiset(Sort(s)) == multiset(s)
  {
    SortBySorts(s, (x: real) => x);
  }

  predicate Whole(x: real) {
    x == x.Floor as real
  }

  /** Marker positions are whole numbers from 1 to `n`, strictly increasing. */
  predicate Placed(pos: seq<real>, n: nat)
    requires |pos| == 5
  {
    && (forall i :: 0 <= i < 5 ==> Whole(pos[i]))
    && (forall i :: 0 <= i < 4 ==> pos[i] < pos[i + 1])
    && pos[0] == 1.0 && pos[4] == n as real
  }

  /** Desired positions follow the count. */
  predicate Wanted(want: seq<real>, step: seq<real>, n: nat)
    requires |want| == 5 && |step| == 5
  {
    forall i :: 0 <= i < 5 ==> want[i] == 1.0 + (n as real - 1.0) * step[i]
  }

  datatype Markers = Markers(q: seq<real>, pos: seq<real>, want: seq<real>, step: seq<real>) {
    predicate Five() {
      |q| == 5 && |pos| == 5 && |want| == 5 && |step| == 5
    }

    /** What holds after the stream `seen` of at least five observations. */
    ghost predicate Holds(seen: seq<real>) {
      && Five()
      && Ascending(q) && IsLeast(q[0], seen) && IsGreatest(q[4], seen)
      && Placed(pos, |seen|) && Wanted(want, step, |seen|)
    }
  }

  /** The markers aim at the least value, the quantile of `p`, the greatest, and
      midway between these. */
  predicate Aimed(step: seq<real>, p: real) {
    && |step| == 5 && step[0] == 0.0 && step[2] == p && step[4] == 1.0
    && step[1] - step[0] == step[2] - step[1] && step[3] - step[2] == step[4] - step[3]
  }

  function Start(p: real): (m: Markers)
    ensures m.Five() && Placed(m.pos, 5) && Wanted(m.want, m.step, 5) && Aimed(m.step, p)
  {
    Markers([0.0, 0.0, 0.0, 0.0, 0.0], [1.0, 2.0, 3.0, 4.0, 5.0],
            [1.0, 1.0 + 2.0 * p, 1.0 + 4.0 * p, 3.0 + 2.0 * p, 5.0],
            [0.0, p / 2.0, p, (1.0 + p) / 2.0, 1.0])
  }

  /** The cell of `x` among the markers, after widening the outer ones. */
  function Cell(q: seq<real>, x: real): (k: nat)
    requires |q| == 5 && Ascending(q)
    ensures k < 4
    ensures 0 < k ==> q[k] <= x
    ensures k < 3 ==> x < q[k + 1]
  {
    if x < q[0] then 0
    else if x >= q[4] then 3
    else if x < q[1] then 0 else if x < q[2] then 1 else if x < q[3] then 2 else 3
  }

  function Widen(q: seq<real>, x: real): (r: seq<real>)
    requires |q| == 5
    ensures |r| == 5
  {
    if x < q[0] then q[0 := x] else if x >= q[4] then q[4 := x] else q
  }

  /** Counting `x` in: outer markers widened, positions above the cell moved up,
      desired positions advanced. */
  function Advance(m: Markers, x: real): (r: Markers)
    requires m.Five() && Ascending(m.q)
    ensures r.Five()
  {
    m.(q := Widen(m.q, x), pos := PushedUp(m.pos, Cell(m.q, x)), want := Advanced(m.want, m.step))
  }

  function PushedUp(pos: seq<real>, k: nat): (r: seq<real>)
    requires |pos| == 5
    ensures |r| == 5
  {
    seq(5, i requires 0 <= i < 5 => if i <= k then pos[i] else pos[i] + 1.0)
  }

  function Advanced(want: seq<real>, step: seq<real>): (r: seq<real>)
    requires |want| == 5 && |step| == 5
    ensures |r| == 5
  {
    seq(5, i requires 0 <= i < 5 => want[i] + step[i])
  }

  function Weighted(weight: real, rise: real, run: real): real
    requires run != 0.0
  {
    weight * rise / run
  }

  function Stretched(s: real, width: real, total: real): real
    requires width != 0.0
  {
    s / width * total
  }

  function Parabolic(q: seq<real>, n: seq<real>, i: nat, s: real): real
    requires |q| == 5 && |n| == 5 && 1 <= i <= 3
    requires n[i - 1] < n[i] < n[i + 1]
  {
    q[i] + Stretched(s, n[i + 1] - n[i - 1],
                     Weighted(n[i] - n[i - 1] + s, q[i + 1] - q[i], n[i + 1] - n[i])
                     + Weighted(n[i + 1] - n[i] - s, q[i] - q[i - 1], n[i] - n[i - 1]))
  }

  function Linear(q: seq<real>, n: seq<real>, i: nat, s: real): real
    requires |q| == 5 && |n| == 5 && 1 <= i <= 3
    requires n[i - 1] < n[i] < n[i + 1]
  {
    var j := if s > 0.0 then i + 1 else i - 1;
    q[i] + s * (q[j] - q[i]) / (n[j] - n[i])
  }

  /** Which way marker `i` moves: one step, or not at all. */
  function Move(m: Markers, i: nat): (s: real)
    requires m.Five() && 1 <= i <= 3
    ensures s == 0.0 || s == 1.0 || s == -1.0
    ensures s == 1.0 <==> m.want[i] - m.pos[i] >= 1.0 && m.pos[i + 1] - m.pos[i] > 1.0
    ensures s == -1.0 <==> m.want[i] - m.pos[i] <= -1.0 && m.pos[i - 1] - m.pos[i] < -1.0
  {
    var d := m.want[i] - m.pos[i];
    if d >= 1.0 && m.pos[i + 1] - m.pos[i] > 1.0 then 1.0
    else if d <= -1.0 && m.pos[i - 1] - m.pos[i] < -1.0 then -1.0
    else 0.0
  }

  /** The height of marker `i` after a move by `s`. */
  function Height(m: Markers, i: nat, s: real): real
    requires m.Five() && 1 <= i <= 3 && m.pos[i - 1] < m.pos[i] < m.pos[i + 1]
  {
    var curve := Parabolic(m.q, m.pos, i, s);
    if m.q[i - 1] < curve < m.q[i + 1] then curve else Linear(m.q, m.pos, i, s)
  }

  function Adjust(m: Markers, i: nat): (r: Markers)
    requires m.Five() && 1 <= i <= 3 && m.pos[i - 1] < m.pos[i] < m.pos[i + 1]
    ensures r.Five() && r.want == m.want && r.step == m.step
  {
    var s := Move(m, i);
    if s == 0.0 then m else m.(q := m.q[i := Height(m, i, s)], pos := m.pos[i := m.pos[i] + s])
  }

  /** Widened markers still ascend, and the outer ones are the extremes. */
  lemma WidenHolds(q: seq<real>, x: real, seen: seq<real>)
    requires |q| == 5 && Ascending(q) && IsLeast(q[0], seen) && IsGreatest(q[4], seen)
    ensures Ascending(Widen(q, x)) && IsLeast(Widen(q, x)[0], seen + [x]) && IsGreatest(Widen(q, x)[4], seen + [x])
  {
  }

  lemma WholeSteps(x: real)
    requires Whole(x)
    ensures Whole(x + 1.0) && Whole(x - 1.0)
  {
    assert x == x.Floor as real;
    assert x + 1.0 == (x.Floor + 1) as real;
    assert x - 1.0 == (x.Floor - 1) as real;
  }

  /** Whole numbers more than one apart are at least two apart. */
  lemma WholeGap(x: real, y: real)
    requires Whole(x) && Whole(y) && y - x > 1.0
    ensures y - x >= 2.0
  {
    assert y.Floor - x.Floor > 1;
  }

  lemma AdvanceHolds(m: Markers, x: real, seen: seq<real>)
    requires m.Holds(seen)
    ensures Advance(m, x).Holds(seen + [x])
  {
    hide Ascending, IsLeast, IsGreatest, Placed, Wanted, PushedUp, Advanced, Widen, Cell;
    WidenHolds(m.q, x, seen);
    PushedUpPlaced(m.pos, Cell(m.q, x), |seen|);
    AdvancedWanted(m.want, m.step, |seen|);
  }

  lemma PushedUpPlaced(pos: seq<real>, k: nat, n: nat)
    requires |pos| == 5 && Placed(pos, n) && k < 4
    ensures Placed(PushedUp(pos, k), n + 1)
  {
    var r := PushedUp(pos, k);
    forall i | 0 <= i < 5
      ensures Whole(r[i])
    {
      WholeSteps(pos[i]);
    }
    hide Whole;
  }

  lemma AdvancedWanted(want: seq<real>, step: seq<real>, n: nat)
    requires |want| == 5 && |step| == 5 && Wanted(want, step, n)
    ensures Wanted(Advanced(want, step), step, n + 1)
  {
    forall i | 0 <= i < 5
      ensures Advanced(want, step)[i] == 1.0 + ((n + 1) as real - 1.0) * step[i]
    {
      OneMoreStep(want[i], step[i], n);
    }
  }

  lemma OneMoreStep(want: real, step: real, n: nat)
    requires want == 1.0 + (n as real - 1.0) * step
    ensures want + step == 1.0 + ((n + 1) as real - 1.0) * step
  {
    assert (n + 1) as real - 1.0 == (n as real - 1.0) + 1.0;
  }

  /** A step towards a neighbour at least two positions away stays between. */
  lemma LinearBetween(q: seq<real>, n: seq<real>, i: nat, s: real)
    requires |q| == 5 && |n| == 5 && 1 <= i <= 3 && Ascending(q)
    requires n[i - 1] < n[i] < n[i + 1]
    requires (s == 1.0 && n[i + 1] - n[i] >= 1.0) || (s == -1.0 && n[i] - n[i - 1] >= 1.0)
    ensures q[i - 1] <= Linear(q, n, i, s) <= q[i + 1]
  {
    var j := if s > 0.0 then i + 1 else i - 1;
    var rise, gap := q[j] - q[i], n[j] - n[i];
    assert q[i - 1] <= q[i] <= q[i + 1];
    if s == 1.0 {
      Fraction(rise, gap);
    } else {
      Fraction(-rise, -gap);
      assert -1.0 * rise / gap == (-rise) / gap == -((-rise) / -gap);
    }
  }

  lemma Fraction(rise: real, gap: real)
    requires rise >= 0.0 && gap >= 1.0
    ensures 0.0 <= rise / gap <= rise
  {
  }

  /** A marker moves only where there is room, so positions stay whole and
      strictly increasing. */
  lemma MovePlaced(m: Markers, i: nat, n: nat)
    requires m.Five() && Placed(m.pos, n) && 1 <= i <= 3
    ensures m.pos[i - 1] < m.pos[i] < m.pos[i + 1]
    ensures Placed(m.pos[i := m.pos[i] + Move(m, i)], n)
    ensures Move(m, i) == 1.0 ==> m.pos[i + 1] - m.pos[i] >= 1.0
    ensures Move(m, i) == -1.0 ==> m.pos[i] - m.pos[i - 1] >= 1.0
  {
    assert m.pos[i - 1] < m.pos[i - 1 + 1] && m.pos[i] < m.pos[i + 1];
    WholeSteps(m.pos[i]);
    if m.pos[i + 1] - m.pos[i] > 1.0 {
      WholeGap(m.pos[i], m.pos[i + 1]);
    }
    if m.pos[i] - m.pos[i - 1] > 1.0 {
      WholeGap(m.pos[i - 1], m.pos[i]);
    }
  }

  /** The new height lies between the neighbours. */
  lemma HeightBetween(m: Markers, i: nat, s: real)
    requires m.Five() && 1 <= i <= 3 && Ascending(m.q) && m.pos[i - 1] < m.pos[i] < m.pos[i + 1]
    requires (s == 1.0 && m.pos[i + 1] - m.pos[i] >= 1.0) || (s == -1.0 && m.pos[i] - m.pos[i - 1] >= 1.0)
    ensures m.q[i - 1] <= Height(m, i, s) <= m.q[i + 1]
  {
    LinearBetween(m.q, m.pos, i, s);
  }

  lemma AscendingUpdate(q: seq<real>, i: nat, h: real)
    requires |q| == 5 && Ascending(q) && 1 <= i <= 3 && q[i - 1] <= h <= q[i + 1]
    ensures Ascending(q[i := h])
  {
  }

  lemma AdjustHolds(m: Markers, i: nat, seen: seq<real>)
    requires m.Holds(seen) && 1 <= i <= 3
    ensures m.pos[i - 1] < m.pos[i] < m.pos[i + 1]
    ensures Adjust(m, i).Holds(seen)
  {
    MovePlaced(m, i, |seen|);
    var s := Move(m, i);
    if s != 0.0 {
      HeightBetween(m, i, s);
      AscendingUpdate(m.q, i, Height(m, i, s));
      hide Height, Move, Placed, Wanted, Ascending;
    }
  }

  // What the two height formulas are: interpolation through the neighbours.

  function Poly(c0: real, c1: real, c2: real, n: real): real {
    c0 + c1 * n + c2 * n * n
  }

  function Times(x: real, y: real): real { x * y }

  /** The slope of a chord whose ends sum to `sum`. */
  function Slope(c1: real, c2: real, sum: real): real {
    c1 + c2 * sum
  }

  lemma Chord(c0: real, c1: real, c2: real, y: real, z: real)
    ensures Times(Slope(c1, c2, y + z), z - y) == Poly(c0, c1, c2, z) - Poly(c0, c1, c2, y)
  {
  }

  lemma Weigh(c1: real, c2: real, x: real, y: real, z: real, s: real)
    ensures Times(y - x + s, Slope(c1, c2, y + z)) + Times(z - y - s, Slope(c1, c2, x + y))
         == Times(z - x, Slope(c1, c2, 2.0 * y + s))
  {
  }

  lemma Along(c0: real, c1: real, c2: real, y: real, s: real)
    ensures Poly(c0, c1, c2, y) + Times(s, Slope(c1, c2, 2.0 * y + s)) == Poly(c0, c1, c2, y + s)
  {
  }

  lemma Cancel(s: real, width: real, z: real)
    requires width > 0.0
    ensures Stretched(s, width, Times(width, z)) == Times(s, z)
  {
  }

  lemma Quotient(k: real, u: real, w: real, r: real)
    requires w > 0.0 && Times(r, w) == u
    ensures Weighted(k, u, w) == Times(k, r)
  {
  }

  /** The parabolic height is the value one step along of the parabola through
      marker `i` and both its neighbours: of every `c0 + c1*n + c2*n*n` that
      passes through the three. */
  lemma ParabolicInterpolates(q: seq<real>, n: seq<real>, i: nat, s: real, c0: real, c1: real, c2: real)
    requires |q| == 5 && |n| == 5 && 1 <= i <= 3 && n[i - 1] < n[i] < n[i + 1]
    requires forall j :: i - 1 <= j <= i + 1 ==> q[j] == Poly(c0, c1, c2, n[j])
    ensures Parabolic(q, n, i, s) == Poly(c0, c1, c2, n[i] + s)
  {
    hide Poly, Weighted, Stretched, Times, Slope;
    var x, y, z := n[i - 1], n[i], n[i + 1];
    Chord(c0, c1, c2, y, z);
    Chord(c0, c1, c2, x, y);
    Quotient(y - x + s, q[i + 1] - q[i], z - y, Slope(c1, c2, y + z));
    Quotient(z - y - s, q[i] - q[i - 1], y - x, Slope(c1, c2, x + y));
    Weigh(c1, c2, x, y, z, s);
    Cancel(s, z - x, Slope(c1, c2, 2.0 * y + s));
    Along(c0, c1, c2, y, s);
  }

  /** The fallback is the value one step along of the line to the neighbour
      stepped towards. */
  lemma LinearInterpolates(q: seq<real>, n: seq<real>, i: nat, s: real, c0: real, c1: real)
    requires |q| == 5 && |n| == 5 && 1 <= i <= 3 && n[i - 1] < n[i] < n[i + 1]
    requires s != 0.0 && q[i] == c0 + c1 * n[i]
    requires s > 0.0 ==> q[i + 1] == c0 + c1 * n[i + 1]
    requires s < 0.0 ==> q[i - 1] == c0 + c1 * n[i - 1]
    ensures Linear(q, n, i, s) == c0 + c1 * (n[i] + s)
  {
    var j := if s > 0.0 then i + 1 else i - 1;
    var gap := n[j] - n[i];
    assert q[j] - q[i] == c1 * gap;
    assert s * (c1 * gap) / gap == s * c1;
  }

  /** Which cell `x` falls in, and the widened markers. Between the outer
      markers the cell is found by a scan whose last candidate needs no test. */
  method Locate(q: seq<real>, x: real) returns (wide: seq<real>, k: nat)
    requires |q| == 5 && Ascending(q)
    ensures wide == Widen(q, x) && k == Cell(q, x)
  {
    wide := q;
    if x < q[0] {
      wide := wide[0 := x];
      k := 0;
    } else if x >= q[4] {
      wide := wide[4 := x];
      k := 3;
    } else {
      k := 0;
      while k < 3 && x >= wide[k + 1]
        invariant k <= 3 && forall i :: 0 < i <= k ==> x >= q[i]
      {
        k := k + 1;
      }
    }
  }

  method Count(m: Markers, x: real) returns (r: Markers)
    requires m.Five() && Ascending(m.q)
    ensures r == Advance(m, x)
  {
    var q, k := Locate(m.q, x);
    var pos, want := m.pos, m.want;
    for i := k + 1 to 5
      invariant |pos| == 5
      invariant forall j :: 0 <= j < 5 ==> pos[j] == if k < j < i then m.pos[j] + 1.0 else m.pos[j]
    {
      pos := pos[i := pos[i] + 1.0];
    }
    for i := 0 to 5
      invariant |want| == 5
      invariant forall j :: 0 <= j < 5 ==> want[j] == if j < i then m.want[j] + m.step[j] else m.want[j]
    {
      want := want[i := want[i] + m.step[i]];
    }
    r := m.(q := q, pos := pos, want := want);
    assert r.pos == Advance(m, x).pos && r.want == Advance(m, x).want;
  }

  /** `Adjust` of markers 1 up to `i`. */
  function AdjustUpTo(m: Markers, i: nat, ghost seen: seq<real>): (r: Markers)
    requires m.Holds(seen) && i <= 3
    ensures r.Holds(seen)
  {
    if i == 0 then m
    else
      var before := AdjustUpTo(m, i - 1, seen);
      AdjustHolds(before, i, seen);
      Adjust(before, i)
  }

  /** One observation once the markers stand. */
  function Step(m: Markers, x: real, ghost seen: seq<real>): (r: Markers)
    requires m.Holds(seen)
    ensures r.Holds(seen + [x])
  {
    AdvanceHolds(m, x, seen);
    AdjustUpTo(Advance(m, x), 3, seen + [x])
  }

  lemma SortedEnds(s: seq<real>)
    requires |s| == 5
    ensures Ascending(Sort(s)) && |Sort(s)| == 5
    ensures IsLeast(Sort(s)[0], s) && IsGreatest(Sort(s)[4], s)
  {
    SortSorts(s);
    forall y | y in s
      ensures Sort(s)[0] <= y <= Sort(s)[4]
    {
      assert y in multiset(Sort(s));
    }
    assert Sort(s)[0] in multiset(s) && Sort(s)[4] in multiset(s);
  }

  /** Five stored observations are sorted; earlier ones are as pushed; from
      then on the markers stand. */
  ghost predicate Kept(m: Markers, seen: seq<real>) {
    && m.Five()
    && (|seen| < 5 ==> m.q[..|seen|] == seen && Placed(m.pos, 5) && Wanted(m.want, m.step, 5))
    && (|seen| >= 5 ==> m.Holds(seen))
  }

  /** What one push makes of the markers. */
  ghost function Pushed(m: Markers, x: real, seen: seq<real>): Markers
    requires Kept(m, seen)
  {
    if |seen| < 4 then m.(q := m.q[|seen| := x])
    else if |seen| == 4 then m.(q := Sort(seen + [x]))
    else Step(m, x, seen)
  }

  lemma PushedKept(m: Markers, x: real, seen: seq<real>)
    requires Kept(m, seen)
    ensures Kept(Pushed(m, x, seen), seen + [x])
  {
    if |seen| < 4 {
      assert m.q[|seen| := x][..|seen| + 1] == seen + [x];
    } else if |seen| == 4 {
      SortedEnds(seen + [x]);
    }
  }

  lemma PushedFirst(m: Markers, x: real, seen: seq<real>)
    requires Kept(m, seen) && |seen| < 5
    ensures |m.q| == 5
    ensures Pushed(m, x, seen) == m.(q := if |seen| == 4 then Sort(m.q[|seen| := x]) else m.q[|seen| := x])
  {
    if |seen| == 4 {
      assert m.q[|seen| := x] == seen + [x];
    }
  }

  lemma PushedLater(m: Markers, x: real, seen: seq<real>)
    requires Kept(m, seen) && |seen| >= 5
    ensures m.Holds(seen) && Pushed(m, x, seen) == Step(m, x, seen) && Step(m, x, seen).step == m.step
  {
    AdvanceHolds(m, x, seen);
    AdjustUpToStep(Advance(m, x), 3, seen + [x]);
  }

  lemma {:induction false} AdjustUpToStep(m: Markers, i: nat, seen: seq<real>)
    requires m.Holds(seen) && i <= 3
    ensures AdjustUpTo(m, i, seen).step == m.step
  {
    if i > 0 {
      AdjustUpToStep(m, i - 1, seen);
    }
  }

  /** One marker's adjustment, as the source writes it. */
  method Tweak(m: Markers, i: nat) returns (r: Markers)
    requires m.Five() && 1 <= i <= 3 && m.pos[i - 1] < m.pos[i] < m.pos[i + 1]
    ensures r == Adjust(m, i)
  {
    r := m;
    var d := m.want[i] - m.pos[i];
    var roomUp := m.pos[i + 1] - m.pos[i] > 1.0;
    var roomDown := m.pos[i - 1] - m.pos[i] < -1.0;
    if (d >= 1.0 && roomUp) || (d <= -1.0 && roomDown) {
      var s := if d > 0.0 then 1.0 else -1.0;
      var curve := Parabolic(m.q, m.pos, i, s);
      r := r.(q := m.q[i := if m.q[i - 1] < curve && curve < m.q[i + 1] then curve else Linear(m.q, m.pos, i, s)],
              pos := m.pos[i := m.pos[i] + s]);
    }
  }

  /** One observation of standing markers, by the source's loops. */
  method Observe(m: Markers, x: real, ghost seen: seq<real>) returns (r: Markers)
    requires m.Holds(seen)
    ensures r == Step(m, x, seen)
  {
    AdvanceHolds(m, x, seen);
    r := Count(m, x);
    ghost var counted := r;
    for i := 1 to 4
      invariant r == AdjustUpTo(counted, i - 1, seen + [x])
    {
      AdjustHolds(r, i, seen + [x]);
      r := Tweak(r, i);
    }
  }

  class P2 {
    var q: seq<real>
    var pos: seq<real>
    var want: seq<real>
    var step: seq<real>
    var seen: nat
    /** Everything pushed so far. */
    ghost var stream: seq<real>

    function Marks(): Markers
      reads this
    {
      Markers(q, pos, want, step)
    }

    ghost predicate Valid()
      reads this
    {
      seen == |stream| && Kept(Marks(), stream)
    }

    constructor (p: real)
      ensures Valid() && stream == [] && Aimed(step, p)
    {
      var m := Start(p);
      q, pos, want, step := m.q, m.pos, m.want, m.step;
      seen, stream := 0, [];
    }

    method Push(x: real)
      requires Valid()
      modifies this
      ensures Valid() && stream == old(stream) + [x] && step == old(step)
      ensures Marks() == Pushed(old(Marks()), x, old(stream))
    {
      ghost var m, longer := Marks(), stream + [x];
      PushedKept(m, x, stream);
      hide Kept, Pushed;
      if seen < 5 {
        PushedFirst(m, x, stream);
        q := q[seen := x];
        if seen + 1 == 5 {
          q := Sort(q);
        }
      } else {
        PushedLater(m, x, stream);
        var r := Observe(Marks(), x, stream);
        q, pos, want := r.q, r.pos, r.want;
      }
      seen := seen + 1;
      stream := longer;
    }

    /** No estimate before five observations; afterwards it is the middle marker,
        within the range seen. */
    method Estimate() returns (e: Option<real>)
      requires Valid()
      ensures (e.Some? <==> |stream| >= 5) && (e.Some? ==> |q| == 5 && e.value == q[2])
      ensures e.Some? ==> exists lo, hi :: IsLeast(lo, stream) && IsGreatest(hi, stream) && lo <= e.value <= hi
    {
      if seen >= 5 {
        assert IsLeast(q[0], stream) && IsGreatest(q[4], stream) && q[0] <= q[2] <= q[4];
        e := Some(q[2]);
      } else {
        e := None;
      }
    }
  }
}
