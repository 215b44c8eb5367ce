/**
 * What compilation preserves (src/topology.rs): a row of couplings weighs a
 * node's neighbours exactly as the edges do, and row lengths are the degrees
 * that the limits are checked on (src/sampler.rs, src/combined.rs).
 */
module LocalFields {
  import opened Topology

  function SumOf<T>(s: seq<T>, f: T -> int): int {
    if s == [] then 0 else SumOf(s[..|s| - 1], f) + f(s[|s| - 1])
  }

  lemma {:induction false} SumSplit<T>(a: seq<T>, b: seq<T>, f: T -> int)
    ensures SumOf(a + b, f) == SumOf(a, f) + SumOf(b, f)
  {
    if b == [] {
      assert a + b == a;
    } else {
      assert (a + b)[..|a + b| - 1] == a + b[..|b| - 1];
      SumSplit(a, b[..|b| - 1], f);
    }
  }

  lemma Around<T>(b: seq<T>, i: nat)
    requires i < |b|
    ensures b == b[..i] + ([b[i]] + b[i + 1..])
    ensures multiset(b[..i] + b[i + 1..]) + multiset{b[i]} == multiset(b)
  {
    assert b == b[..i] + ([b[i]] + b[i + 1..]);
    assert multiset(b) == multiset(b[..i]) + (multiset{b[i]} + multiset(b[i + 1..]));
  }

  /** Taking one element out of the middle. */
  lemma SumWithout<T>(b: seq<T>, i: nat, f: T -> int)
    requires i < |b|
    ensures SumOf(b, f) == SumOf(b[..i] + b[i + 1..], f) + f(b[i])
  {
    hide SumOf;
    Around(b, i);
    SumSplit(b[..i], b[i + 1..], f);
    SumSplit(b[..i], [b[i]] + b[i + 1..], f);
    SumSplit([b[i]], b[i + 1..], f);
    SumOne([b[i]], f);
  }

  lemma SameRest<T>(a: seq<T>, b: seq<T>, x: T)
    requires multiset(a) + multiset{x} == multiset(b) + multiset{x}
    ensures multiset(a) == multiset(b)
  {
    assert multiset(a) == (multiset(a) + multiset{x}) - multiset{x};
    assert multiset(b) == (multiset(b) + multiset{x}) - multiset{x};
  }

  /** A sum does not depend on order. */
  lemma {:induction false} SumPermute<T>(a: seq<T>, b: seq<T>, f: T -> int)
    requires multiset(a) == multiset(b)
    ensures SumOf(a, f) == SumOf(b, f)
  {
    if a == [] {
      assert |multiset(b)| == 0;
    } else {
      var last := |a| - 1;
      SumWithout(a, last, f);
      Around(a, last);
      assert a[..last] + a[last + 1..] == a[..last];
      assert a[last] in multiset(b);
      var i :| 0 <= i < |b| && b[i] == a[last];
      SumWithout(b, i, f);
      Around(b, i);
      hide SumOf;
      SameRest(a[..last], b[..i] + b[i + 1..], a[last]);
      SumPermute(a[..last], b[..i] + b[i + 1..], f);
    }
  }

  /** What edge `e` with coupling `j` adds to the field at node `u`: the spin of
      the other end. A self-loop adds its own spin once. */
  function EdgeTerm(n: nat, e: Edge, j: int, spins: seq<int>, u: nat): int
    requires |spins| == n
  {
    if !InRange(n, e) then 0
    else (if e.0 == u then j * spins[e.1] else 0) + (if e.1 == u && e.0 != u then j * spins[e.0] else 0)
  }

  /** The coupling part of the Ising local field, edge by edge. */
  ghost function EdgeField(n: nat, edges: seq<Edge>, value: nat -> int, spins: seq<int>, u: nat): int
    requires |spins| == n
  {
    if edges == [] then 0
    else EdgeField(n, edges[..|edges| - 1], value, spins, u)
         + EdgeTerm(n, edges[|edges| - 1], value(|edges| - 1), spins, u)
  }

  /** The same field as the kernel sums it, position by position. */
  function RowField(t: Csr, csr: seq<int>, spins: seq<int>, from: nat, till: nat): int
    requires from <= till <= |csr| == |t.col|
    requires forall p :: from <= p < till ==> t.col[p] < |spins|
    decreases till - from
  {
    if from == till then 0
    else RowField(t, csr, spins, from, till - 1) + csr[till - 1] * spins[t.col[till - 1]]
  }

  ghost function Term(value: nat -> int, spins: seq<int>): Half -> int {
    (h: Half) => if h.nbr < |spins| then value(h.k) * spins[h.nbr] else 0
  }

  lemma {:induction false} IncidentField(n: nat, edges: seq<Edge>, value: nat -> int, spins: seq<int>, u: nat)
    requires |spins| == n
    ensures SumOf(Incident(n, edges, u), Term(value, spins)) == EdgeField(n, edges, value, spins, u)
  {
    if edges != [] {
      var rest, last, k := edges[..|edges| - 1], edges[|edges| - 1], |edges| - 1;
      IncidentField(n, rest, value, spins, u);
      SumSplit(Incident(n, rest, u), HalvesOf(n, last, k, u), Term(value, spins));
      HalvesField(n, last, k, value, spins, u);
    }
  }

  lemma HalvesField(n: nat, e: Edge, k: nat, value: nat -> int, spins: seq<int>, u: nat)
    requires |spins| == n
    ensures SumOf(HalvesOf(n, e, k, u), Term(value, spins)) == EdgeTerm(n, e, value(k), spins, u)
  {
    var f := Term(value, spins);
    if InRange(n, e) {
      var there := if e.0 == u then [Half(e.1, k, true)] else [];
      var back := if e.1 == u && e.0 != u then [Half(e.0, k, false)] else [];
      SumSplit(there, back, f);
      SumOne(there, f);
      SumOne(back, f);
    }
  }

  lemma SumOne<T>(s: seq<T>, f: T -> int)
    requires |s| <= 1
    ensures SumOf(s, f) == if s == [] then 0 else f(s[0])
  {
    if |s| == 1 {
      assert s[..0] == [];
    }
  }

  lemma SliceInit<T>(s: seq<T>, from: nat, till: nat)
    requires from < till <= |s|
    ensures s[from..till][..till - from - 1] == s[from..till - 1]
    ensures s[from..till][till - from - 1] == s[till - 1]
  {
  }

  lemma {:induction false} RowAsHalves(t: Csr, csr: seq<int>, halves: seq<Half>, value: nat -> int, spins: seq<int>,
                                       from: nat, till: nat)
    requires Filled(csr, halves, value) && |t.col| == |halves|
    requires forall p :: 0 <= p < |halves| ==> t.col[p] == halves[p].nbr
    requires from <= till <= |halves|
    requires forall p :: from <= p < till ==> t.col[p] < |spins|
    ensures RowField(t, csr, spins, from, till) == SumOf(halves[from..till], Term(value, spins))
    decreases till
  {
    if from < till {
      SliceInit(halves, from, till);
      RowAsHalves(t, csr, halves, value, spins, from, till - 1);
    }
  }

  /** The columns of a row are nodes. */
  lemma RowColumns(t: Csr, edges: seq<Edge>, halves: seq<Half>, u: nat)
    requires Compiles(t, edges, halves) && u < t.n
    ensures t.rowPtr[u] <= t.rowPtr[u + 1] <= |t.col|
    ensures forall p :: t.rowPtr[u] <= p < t.rowPtr[u + 1] ==> t.col[p] < t.n
  {
    forall p | t.rowPtr[u] <= p < t.rowPtr[u + 1]
      ensures t.col[p] < t.n
    {
      RowMember(t.rowPtr[u], t.rowPtr[u + 1], t.n, edges, halves, u, p);
    }
  }

  /** For every spin vector, every node and every graph (duplicate edges,
      self-loops and skipped edges included), the row's weighted sum is the sum
      over incident edges. */
  lemma LocalField(t: Csr, edges: seq<Edge>, halves: seq<Half>, csr: seq<int>, value: nat -> int, spins: seq<int>, u: nat)
    requires Compiles(t, edges, halves) && Filled(csr, halves, value)
    requires |spins| == t.n && u < t.n
    ensures t.rowPtr[u] <= t.rowPtr[u + 1] <= |csr|
    ensures forall p :: t.rowPtr[u] <= p < t.rowPtr[u + 1] ==> t.col[p] < t.n
    ensures RowField(t, csr, spins, t.rowPtr[u], t.rowPtr[u + 1]) == EdgeField(t.n, edges, value, spins, u)
  {
    RowColumns(t, edges, halves, u);
    var from, till := t.rowPtr[u], t.rowPtr[u + 1];
    RowAsHalves(t, csr, halves, value, spins, from, till);
    assert Row(from, till, t.n, edges, halves, u);
    SumPermute(halves[from..till], Incident(t.n, edges, u), Term(value, spins));
    IncidentField(t.n, edges, value, spins, u);
  }

  // Degrees.

  const DEGREE_LIMIT: nat := 20

  function Degree(n: nat, edges: seq<Edge>, u: nat): nat {
    |Incident(n, edges, u)|
  }

  /** How many ends of `e` are at `u`, a self-loop counting once. */
  function Ends(n: nat, e: Edge, u: nat): nat {
    if !InRange(n, e) then 0 else (if e.0 == u then 1 else 0) + (if e.1 == u && e.0 != u then 1 else 0)
  }

  function Largest(s: seq<nat>): nat {
    if s == [] then 0
    else
      var rest := Largest(s[..|s| - 1]);
      if s[|s| - 1] > rest then s[|s| - 1] else rest
  }

  lemma {:induction false} LargestBounds(s: seq<nat>, limit: nat)
    ensures Largest(s) <= limit <==> forall i :: 0 <= i < |s| ==> s[i] <= limit
  {
    if s != [] {
      LargestBounds(s[..|s| - 1], limit);
    }
  }

  lemma DegreeStep(n: nat, edges: seq<Edge>, k: nat, u: nat)
    requires k < |edges| && u < n
    ensures Degree(n, edges[..k + 1], u) == Degree(n, edges[..k], u) + Ends(n, edges[k], u)
  {
    assert edges[..k + 1][..k] == edges[..k];
  }

  /** Counting endpoints one edge at a time. */
  method CountDegrees(n: nat, edges: seq<Edge>) returns (degree: seq<nat>)
    ensures |degree| == n && forall u :: 0 <= u < n ==> degree[u] == Degree(n, edges, u)
  {
    degree := seq(n, _ => 0);
    for k := 0 to |edges|
      invariant |degree| == n && forall u :: 0 <= u < n ==> degree[u] == Degree(n, edges[..k], u)
    {
      forall u: nat | u < n
        ensures Degree(n, edges[..k + 1], u) == Degree(n, edges[..k], u) + Ends(n, edges[k], u)
      {
        DegreeStep(n, edges, k, u);
      }
      hide Degree;
      var (u, v) := edges[k];
      if u >= n || v >= n {
        continue;
      }
      degree := degree[u := degree[u] + 1];
      if u != v {
        degree := degree[v := degree[v] + 1];
      }
    }
    assert edges[..|edges|] == edges;
  }

  ghost function Degrees(n: nat, edges: seq<Edge>): seq<nat> {
    seq(n, u requires 0 <= u < n => Degree(n, edges, u))
  }

  /** The sampler's degree: the largest count. */
  method MaxCsrDegree(n: nat, edges: seq<Edge>) returns (max: nat)
    ensures max == Largest(Degrees(n, edges))
  {
    var degree := CountDegrees(n, edges);
    assert degree == Degrees(n, edges);
    max := Largest(degree);
  }

  /** Row lengths, bottom up. */
  function Lengths(t: Csr): (r: seq<nat>)
    requires Rows(t.rowPtr, t.n, t.Nnz())
    ensures |r| == t.n
  {
    seq(t.n, u requires 0 <= u < t.n => t.rowPtr[u + 1] - t.rowPtr[u])
  }

  lemma RowLength(t: Csr, edges: seq<Edge>, halves: seq<Half>, u: nat)
    requires Compiles(t, edges, halves) && u < t.n
    ensures Lengths(t)[u] == Degree(t.n, edges, u)
  {
    assert Row(t.rowPtr[u], t.rowPtr[u + 1], t.n, edges, halves, u);
    assert |multiset(halves[t.rowPtr[u]..t.rowPtr[u + 1]])| == |multiset(Incident(t.n, edges, u))|;
  }

  /** Three degree computations agree: the longest row that compilation produces
      is the sampler's degree, and it is within the limit exactly when no node
      has more than that many ends. */
  lemma LongestRow(t: Csr, edges: seq<Edge>, halves: seq<Half>)
    requires Compiles(t, edges, halves)
    ensures Largest(Lengths(t)) == Largest(Degrees(t.n, edges))
    ensures Largest(Lengths(t)) <= DEGREE_LIMIT <==> forall u :: 0 <= u < t.n ==> Degree(t.n, edges, u) <= DEGREE_LIMIT
  {
    forall u: nat | u < t.n
      ensures Lengths(t)[u] == Degree(t.n, edges, u)
    {
      RowLength(t, edges, halves, u);
    }
    hide Compiles, Degree;
    assert Lengths(t) == Degrees(t.n, edges);
    LargestBounds(Degrees(t.n, edges), DEGREE_LIMIT);
  }
}
