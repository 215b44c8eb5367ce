/**
 * One-pass central moments (src/cutoff.rs), over the reals: the running update
 * equals the batch definition after any stream.
 */
module MomentSums {

  function Sum(xs: seq<real>): real {
    if xs == [] then 0.0 else Sum(xs[..|xs| - 1]) + xs[|xs| - 1]
  }

  function Mean(xs: seq<real>): real {
    if xs == [] then 0.0 else Sum(xs) / |xs| as real
  }

  function Square(x: real): real { x * x }
  function Cube(x: real): real { x * x * x }
  function Fourth(x: real): real { x * x * x * x }

  /** Sums of powers of deviations from `c`. */
  function Dev2(xs: seq<real>, c: real): real {
    if xs == [] then 0.0 else Dev2(xs[..|xs| - 1], c) + Square(xs[|xs| - 1] - c)
  }

  function Dev3(xs: seq<real>, c: real): real {
    if xs == [] then 0.0 else Dev3(xs[..|xs| - 1], c) + Cube(xs[|xs| - 1] - c)
  }

  function Dev4(xs: seq<real>, c: real): real {
    if xs == [] then 0.0 else Dev4(xs[..|xs| - 1], c) + Fourth(xs[|xs| - 1] - c)
  }

  function Dev1(xs: seq<real>, c: real): real {
    if xs == [] then 0.0 else Dev1(xs[..|xs| - 1], c) + (xs[|xs| - 1] - c)
  }

  function Count(xs: seq<real>): real {
    |xs| as real
  }

  // What moving the centre by `d` does to sums of first to fourth powers.

  function Move2(a2: real, a1: real, n: real, d: real): real {
    a2 - 2.0 * (d * a1) + Square(d) * n
  }

  function Move3(a3: real, a2: real, a1: real, n: real, d: real): real {
    a3 - 3.0 * (d * a2) + 3.0 * (Square(d) * a1) - Cube(d) * n
  }

  function Move4(a4: real, a3: real, a2: real, a1: real, n: real, d: real): real {
    a4 - 4.0 * (d * a3) + 6.0 * (Square(d) * a2) - 4.0 * (Cube(d) * a1) + Fourth(d) * n
  }

  lemma CubeLess(y: real, d: real)
    ensures Cube(y - d) == Cube(y) - 3.0 * (d * Square(y)) + 3.0 * (Square(d) * y) - Cube(d)
  {
  }

  lemma FourthLess(y: real, d: real)
    ensures Fourth(y - d)
         == Fourth(y) - 4.0 * (d * Cube(y)) + 6.0 * (Square(d) * Square(y)) - 4.0 * (Cube(d) * y) + Fourth(d)
  {
    CubeLess(y, d);
    assert Fourth(y - d) == Cube(y - d) * (y - d);
  }

  lemma MoveAdds2(a2: real, a1: real, n: real, y: real, d: real)
    ensures Move2(a2, a1, n, d) + Square(y - d) == Move2(a2 + Square(y), a1 + y, n + 1.0, d)
  {
  }

  lemma MoveAdds3(a3: real, a2: real, a1: real, n: real, y: real, d: real)
    ensures Move3(a3, a2, a1, n, d) + Cube(y - d) == Move3(a3 + Cube(y), a2 + Square(y), a1 + y, n + 1.0, d)
  {
    CubeLess(y, d);
    hide Square, Cube;
    Spread(d, a2, Square(y));
    Spread(Square(d), a1, y);
    Spread(Cube(d), n, 1.0);
  }

  lemma MoveAdds4(a4: real, a3: real, a2: real, a1: real, n: real, y: real, d: real)
    ensures Move4(a4, a3, a2, a1, n, d) + Fourth(y - d)
         == Move4(a4 + Fourth(y), a3 + Cube(y), a2 + Square(y), a1 + y, n + 1.0, d)
  {
    FourthLess(y, d);
    hide Square, Cube, Fourth;
    Spread(d, a3, Cube(y));
    Spread(Square(d), a2, Square(y));
    Spread(Cube(d), a1, y);
    Spread(Fourth(d), n, 1.0);
  }

  lemma Spread(a: real, b: real, c: real)
    ensures a * (b + c) == a * b + a * c
  {
  }

  /** Moving the centre by `d`. */
  lemma {:induction false} Shift(xs: seq<real>, c: real, d: real)
    ensures Dev2(xs, c + d) == Move2(Dev2(xs, c), Dev1(xs, c), Count(xs), d)
    ensures Dev3(xs, c + d) == Move3(Dev3(xs, c), Dev2(xs, c), Dev1(xs, c), Count(xs), d)
    ensures Dev4(xs, c + d) == Move4(Dev4(xs, c), Dev3(xs, c), Dev2(xs, c), Dev1(xs, c), Count(xs), d)
  {
    if xs != [] {
      var rest, y := xs[..|xs| - 1], xs[|xs| - 1] - c;
      Shift(rest, c, d);
      assert y - d == xs[|xs| - 1] - (c + d);
      assert Count(xs) == Count(rest) + 1.0;
      hide Square, Cube, Fourth, Move2, Move3, Move4;
      MoveAdds2(Dev2(rest, c), Dev1(rest, c), Count(rest), y, d);
      MoveAdds3(Dev3(rest, c), Dev2(rest, c), Dev1(rest, c), Count(rest), y, d);
      MoveAdds4(Dev4(rest, c), Dev3(rest, c), Dev2(rest, c), Dev1(rest, c), Count(rest), y, d);
    }
  }

  lemma {:induction false} Dev1IsSum(xs: seq<real>, c: real)
    ensures Dev1(xs, c) == Sum(xs) - Count(xs) * c
  {
    if xs != [] {
      var rest := xs[..|xs| - 1];
      Dev1IsSum(rest, c);
      assert Count(xs) == Count(rest) + 1.0;
      assert Count(xs) * c == Count(rest) * c + c;
    }
  }

  /** Deviations from the mean cancel. */
  lemma MeanCentres(xs: seq<real>)
    ensures Dev1(xs, Mean(xs)) == 0.0
  {
    Dev1IsSum(xs, Mean(xs));
  }

  /** The mean after one more observation. */
  lemma MeanStep(xs: seq<real>, x: real)
    ensures Mean(xs + [x]) == Mean(xs) + (x - Mean(xs)) / (Count(xs) + 1.0)
  {
    assert (xs + [x])[..|xs|] == xs;
    var n, m := Count(xs), Mean(xs);
    assert Count(xs + [x]) == n + 1.0;
    assert Sum(xs) == n * m;
    assert Mean(xs + [x]) == (n * m + x) / (n + 1.0);
    assert (m + (x - m) / (n + 1.0)) * (n + 1.0) == n * m + x;
  }

  // The source's update terms, in the number of earlier observations `k` and
  // the step `e` of the mean. The new observation lies `k * e` above the new
  // mean.

  function Term1(k: real, e: real): real {
    (k + 1.0) * e * e * k
  }

  // The source's updates of the fields, in its own terms.

  function Next2(m2: real, term1: real): real {
    m2 + term1
  }

  function Next3(m3: real, m2: real, count: real, deltaN: real, term1: real): real {
    m3 + term1 * deltaN * (count - 2.0) - 3.0 * deltaN * m2
  }

  function Next4(m4: real, m3: real, m2: real, count: real, deltaN: real, deltaN2: real, term1: real): real {
    m4 + term1 * deltaN2 * (count * count - 3.0 * count + 3.0) + 6.0 * deltaN2 * m2 - 4.0 * deltaN * m3
  }

  lemma Update2(m2: real, k: real, e: real, term1: real)
    requires term1 == Term1(k, e)
    ensures Move2(m2, 0.0, k, e) + Square(k * e) == Next2(m2, term1)
  {
  }

  lemma Update3(m3: real, m2: real, k: real, e: real, count: real, term1: real)
    requires count == k + 1.0 && term1 == Term1(k, e)
    ensures Move3(m3, m2, 0.0, k, e) + Cube(k * e) == Next3(m3, m2, count, e, term1)
  {
  }

  lemma Update4(m4: real, m3: real, m2: real, k: real, e: real, count: real, e2: real, term1: real)
    requires count == k + 1.0 && term1 == Term1(k, e) && e2 == e * e
    ensures Move4(m4, m3, m2, 0.0, k, e) + Fourth(k * e)
         == Next4(m4, m3, m2, count, e, e2, term1)
  {
  }

  /** The batch sums after one more observation, from the sums before it. */
  lemma SumsStep(xs: seq<real>, x: real, k: real, e: real)
    requires k == Count(xs) && (k + 1.0) * e == x - Mean(xs) && Mean(xs + [x]) == Mean(xs) + e
    ensures var m, now := Mean(xs), xs + [x];
            && Dev2(now, m + e) == Move2(Dev2(xs, m), 0.0, k, e) + Square(k * e)
            && Dev3(now, m + e) == Move3(Dev3(xs, m), Dev2(xs, m), 0.0, k, e) + Cube(k * e)
            && Dev4(now, m + e) == Move4(Dev4(xs, m), Dev3(xs, m), Dev2(xs, m), 0.0, k, e) + Fourth(k * e)
  {
    var m := Mean(xs);
    MeanCentres(xs);
    assert (xs + [x])[..|xs|] == xs;
    assert x - (m + e) == k * e;
    hide Square, Cube, Fourth, Move2, Move3, Move4, Mean, Count, Sum;
    Shift(xs, m, e);
  }

  lemma MulEq(a: real, b: real, c: real)
    requires a == b
    ensures a * c == b * c
  {
  }

  lemma DividedBack(delta: real, count: real, deltaN: real)
    requires count > 0.0 && deltaN == delta / count
    ensures delta == count * deltaN
  {
  }

  lemma Term1Is(k: real, e: real, count: real, delta: real)
    requires count == k + 1.0 && delta == count * e
    ensures delta * e * k == Term1(k, e)
  {
    MulEq(delta, (k + 1.0) * e, e);
    MulEq(delta * e, (k + 1.0) * e * e, k);
  }

  /** One push, in the source's own terms, carries the batch values to the
      longer stream. */
  lemma PushExact(xs: seq<real>, x: real, n1: real, count: real, delta: real, deltaN: real, deltaN2: real, term1: real)
    requires n1 == Count(xs) && count == n1 + 1.0 && delta == x - Mean(xs) && deltaN == delta / count
    requires deltaN2 == deltaN * deltaN && term1 == delta * deltaN * n1
    ensures var m, now := Mean(xs), xs + [x];
            && Mean(now) == m + deltaN
            && Dev4(now, m + deltaN) == Next4(Dev4(xs, m), Dev3(xs, m), Dev2(xs, m), count, deltaN, deltaN2, term1)
            && Dev3(now, m + deltaN) == Next3(Dev3(xs, m), Dev2(xs, m), count, deltaN, term1)
            && Dev2(now, m + deltaN) == Next2(Dev2(xs, m), term1)
  {
    var m := Mean(xs);
    MeanStep(xs, x);
    DividedBack(delta, count, deltaN);
    Term1Is(n1, deltaN, count, delta);
    hide Next2, Next3, Next4, Move2, Move3, Move4, Square, Cube, Fourth, Dev2, Dev3, Dev4, Term1, Mean, Count;
    SumsStep(xs, x, n1, deltaN);
    Update2(Dev2(xs, m), n1, deltaN, term1);
    Update3(Dev3(xs, m), Dev2(xs, m), n1, deltaN, count, term1);
    Update4(Dev4(xs, m), Dev3(xs, m), Dev2(xs, m), n1, deltaN, count, deltaN2, term1);
  }

  class Moments {
    var n: nat
    var mean: real
    var m2: real
    var m3: real
    var m4: real
    /** Everything pushed so far. */
    ghost var stream: seq<real>

    /** The fields are the batch count, mean and central power sums. */
    ghost predicate Valid()
      reads this
    {
      && n == |stream|
      && mean == Mean(stream)
      && m2 == Dev2(stream, mean)
      && m3 == Dev3(stream, mean)
      && m4 == Dev4(stream, mean)
    }

    constructor ()
      ensures Valid() && stream == []
    {
      n, mean, m2, m3, m4, stream := 0, 0.0, 0.0, 0.0, 0.0, [];
    }

    method Push(x: real)
      requires Valid()
      modifies this
      ensures Valid() && stream == old(stream) + [x]
    {
      var n1 := n as real;
      n := n + 1;
      var count := n as real;
      var delta := x - mean;
      var deltaN := delta / count;
      var deltaN2 := deltaN * deltaN;
      var term1 := delta * deltaN * n1;
      PushExact(stream, x, n1, count, delta, deltaN, deltaN2, term1);
      hide Next2, Next3, Next4, Dev2, Dev3, Dev4, Mean;
      mean := mean + deltaN;
      m4 := Next4(m4, m3, m2, count, deltaN, deltaN2, term1);
      m3 := Next3(m3, m2, count, deltaN, term1);
      m2 := Next2(m2, term1);
      stream := stream + [x];
    }
  }
}
