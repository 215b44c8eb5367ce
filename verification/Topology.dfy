/**
 * Compiling a graph to compressed sparse rows (src/topology.rs): half-edges,
 * their positions, and what a row of couplings sums to.
 */
module Topology {
  import opened Sorting
  import opened Wrappers

  type Edge = (nat, nat)

  /** One direction of edge `k`, seen from a row: the neighbour it leads to. */
  datatype Half = Half(nbr: nat, k: nat, forward: bool)

  predicate InRange(n: nat, e: Edge) {
    e.0 < n && e.1 < n
  }

  /** `h` is a half-edge of row `u`. A self-loop has its forward half only. */
  predicate IsHalf(n: nat, edges: seq<Edge>, u: nat, h: Half) {
    && h.k < |edges| && InRange(n, edges[h.k])
    && if h.forward then edges[h.k] == (u, h.nbr) else edges[h.k] == (h.nbr, u) && h.nbr != u
  }

  function HalvesOf(n: nat, e: Edge, k: nat, u: nat): seq<Half> {
    if !InRange(n, e) then []
    else (if e.0 == u then [Half(e.1, k, true)] else [])
         + (if e.1 == u && e.0 != u then [Half(e.0, k, false)] else [])
  }

  /** The half-edges of row `u`, in edge order. */
  function Incident(n: nat, edges: seq<Edge>, u: nat): seq<Half> {
    if edges == [] then []
    else Incident(n, edges[..|edges| - 1], u) + HalvesOf(n, edges[|edges| - 1], |edges| - 1, u)
  }

  lemma HalvesOnce(n: nat, edges: seq<Edge>, u: nat, h: Half)
    requires edges != []
    ensures var last := |edges| - 1;
            multiset(HalvesOf(n, edges[last], last, u))[h] == if h.k == last && IsHalf(n, edges, u, h) then 1 else 0
  {
    hide Incident;
    var last := |edges| - 1;
    var e := edges[last];
    AtMostOne(Half(e.1, last, true), e.0 == u, h);
    AtMostOne(Half(e.0, last, false), e.1 == u && e.0 != u, h);
  }

  lemma AtMostOne(x: Half, kept: bool, h: Half)
    ensures multiset(if kept then [x] else [])[h] == if kept && x == h then 1 else 0
  {
  }

  lemma HalfPrefix(n: nat, edges: seq<Edge>, u: nat, h: Half)
    requires edges != []
    ensures IsHalf(n, edges[..|edges| - 1], u, h) <==> h.k < |edges| - 1 && IsHalf(n, edges, u, h)
    ensures IsHalf(n, edges, u, h) ==> h.k <= |edges| - 1
  {
  }

  lemma NoHalf(n: nat, u: nat, h: Half)
    ensures !IsHalf(n, [], u, h)
  {
  }

  /** Each half-edge of the row once, and nothing else. */
  lemma {:induction false} IncidentOnce(n: nat, edges: seq<Edge>, u: nat, h: Half)
    ensures multiset(Incident(n, edges, u))[h] == if IsHalf(n, edges, u, h) then 1 else 0
  {
    hide HalvesOf, IsHalf;
    if edges == [] {
      NoHalf(n, u, h);
    } else {
      var rest, last := edges[..|edges| - 1], |edges| - 1;
      IncidentOnce(n, rest, u, h);
      HalvesOnce(n, edges, u, h);
      HalfPrefix(n, edges, u, h);
      assert multiset(Incident(n, edges, u))[h]
          == multiset(Incident(n, rest, u))[h] + multiset(HalvesOf(n, edges[last], last, u))[h];
    }
  }

  predicate ByNeighbour(row: seq<Half>) {
    forall i, j :: 0 <= i < j < |row| ==> row[i].nbr <= row[j].nbr
  }

  /** Sorts a row by neighbour. The source's sort leaves ties in any order, so
      only this much is promised. */
  method SortRow(row: seq<Half>) returns (r: seq<Half>)
    ensures ByNeighbour(r) && multiset(r) == multiset(row)
  {
    var key := (h: Half) => h.nbr as real;
    SortBySorts(row, key);
    r := SortBy(row, key);
    forall i, j | 0 <= i < j < |r|
      ensures r[i].nbr <= r[j].nbr
    {
      assert key(r[i]) <= key(r[j]);
    }
  }

  datatype Csr = Csr(n: nat, rowPtr: seq<nat>, col: seq<nat>, edgePos: seq<(nat, nat)>) {
    function Nnz(): nat { |col| }
  }

  /** Where the topology says a half-edge went. */
  function PosOf(edgePos: seq<(nat, nat)>, h: Half): nat
    requires h.k < |edgePos|
  {
    if h.forward then edgePos[h.k].0 else edgePos[h.k].1
  }

  /** Row starts, in order. */
  predicate Rows(rowPtr: seq<nat>, n: nat, nnz: nat) {
    && |rowPtr| == n + 1 && rowPtr[0] == 0 && rowPtr[n] == nnz
    && forall u, v :: 0 <= u <= v <= n ==> rowPtr[u] <= rowPtr[v]
  }

  /** Recorded positions lie below `m`; ones never recorded are zero. */
  predicate Bounded(edgePos: seq<(nat, nat)>, m: nat) {
    forall k :: 0 <= k < |edgePos| ==>
      && (edgePos[k].0 == 0 || edgePos[k].0 < m)
      && (edgePos[k].1 == 0 || edgePos[k].1 < m)
  }

  /** `t` compiles `edges` with the half-edge `halves[p]` at position `p`. */
  ghost predicate Compiles(t: Csr, edges: seq<Edge>, halves: seq<Half>) {
    && |halves| == t.Nnz() && |t.edgePos| == |edges|
    && Rows(t.rowPtr, t.n, t.Nnz()) && Bounded(t.edgePos, t.Nnz())
    && (forall p :: 0 <= p < |halves| ==> t.col[p] == halves[p].nbr)
    && (forall p :: 0 <= p < |halves| ==> halves[p].k < |edges| && PosOf(t.edgePos, halves[p]) == p)
    && forall u :: 0 <= u < t.n ==> Row(t.rowPtr[u], t.rowPtr[u + 1], t.n, edges, halves, u)
  }

  /** Positions `from..till` are row `u`: its half-edges, by neighbour. */
  ghost predicate Row(from: nat, till: nat, n: nat, edges: seq<Edge>, halves: seq<Half>, u: nat) {
    && from <= till <= |halves|
    && ByNeighbour(halves[from..till])
    && multiset(halves[from..till]) == multiset(Incident(n, edges, u))
  }

  lemma RowMember(from: nat, till: nat, n: nat, edges: seq<Edge>, halves: seq<Half>, u: nat, p: nat)
    requires Row(from, till, n, edges, halves, u) && from <= p < till
    ensures IsHalf(n, edges, u, halves[p])
  {
    assert halves[p] == halves[from..till][p - from];
    assert halves[p] in multiset(halves[from..till]);
    IncidentOnce(n, edges, u, halves[p]);
  }

  /** Half-edges and positions are in bijection through `edge_pos`: positions
      name half-edges of their row, and every half-edge of a row is at its own
      position inside that row. */
  lemma Bijection(t: Csr, edges: seq<Edge>, halves: seq<Half>)
    requires Compiles(t, edges, halves)
    ensures forall u, p :: 0 <= u < t.n && t.rowPtr[u] <= p < t.rowPtr[u + 1] ==>
              IsHalf(t.n, edges, u, halves[p]) && PosOf(t.edgePos, halves[p]) == p
    ensures forall u, h :: 0 <= u < t.n && IsHalf(t.n, edges, u, h) ==>
              && t.rowPtr[u] <= PosOf(t.edgePos, h) < t.rowPtr[u + 1]
              && halves[PosOf(t.edgePos, h)] == h
  {
    forall u, p | 0 <= u < t.n && t.rowPtr[u] <= p < t.rowPtr[u + 1]
      ensures IsHalf(t.n, edges, u, halves[p]) && PosOf(t.edgePos, halves[p]) == p
    {
      RowMember(t.rowPtr[u], t.rowPtr[u + 1], t.n, edges, halves, u, p);
    }
    forall u, h | 0 <= u < t.n && IsHalf(t.n, edges, u, h)
      ensures t.rowPtr[u] <= PosOf(t.edgePos, h) < t.rowPtr[u + 1]
      ensures halves[PosOf(t.edgePos, h)] == h
    {
      HalfInRow(t, edges, halves, u, h);
    }
  }

  lemma HalfInRow(t: Csr, edges: seq<Edge>, halves: seq<Half>, u: nat, h: Half)
    requires Compiles(t, edges, halves) && u < t.n && IsHalf(t.n, edges, u, h)
    ensures t.rowPtr[u] <= PosOf(t.edgePos, h) < t.rowPtr[u + 1]
    ensures halves[PosOf(t.edgePos, h)] == h
  {
    assert Row(t.rowPtr[u], t.rowPtr[u + 1], t.n, edges, halves, u);
    hide Row, IsHalf, Incident, Bounded;
    var p := RowHas(t.rowPtr[u], t.rowPtr[u + 1], t.n, edges, halves, u, h);
  }

  lemma RowHas(from: nat, till: nat, n: nat, edges: seq<Edge>, halves: seq<Half>, u: nat, h: Half) returns (p: nat)
    requires Row(from, till, n, edges, halves, u) && IsHalf(n, edges, u, h)
    ensures from <= p < till <= |halves| && halves[p] == h
  {
    hide Incident, IsHalf, ByNeighbour;
    IncidentOnce(n, edges, u, h);
    var row := halves[from..till];
    assert h in multiset(row);
    var i :| 0 <= i < |row| && row[i] == h;
    p := from + i;
  }

  // Building.

  lemma RowGrows(n: nat, before: seq<seq<Half>>, now: seq<seq<Half>>, e: Edge, k: nat, w: nat)
    requires w < n == |before|
    requires var (u, v) := e;
             now == if u >= n || v >= n then before
                    else
                      var first := before[u := before[u] + [Half(v, k, true)]];
                      if u != v then first[v := first[v] + [Half(u, k, false)]] else first
    ensures |now| == n && now[w] == before[w] + HalvesOf(n, e, k, w)
  {
  }

  lemma IncidentNext(n: nat, edges: seq<Edge>, k: nat, u: nat)
    requires k < |edges|
    ensures Incident(n, edges[..k + 1], u) == Incident(n, edges[..k], u) + HalvesOf(n, edges[k], k, u)
  {
    assert edges[..k + 1][..k] == edges[..k];
  }

  /** Per-row half-edges, in edge order. */
  method Adjacency(n: nat, edges: seq<Edge>) returns (adj: seq<seq<Half>>)
    ensures |adj| == n && forall u :: 0 <= u < n ==> adj[u] == Incident(n, edges, u)
  {
    adj := seq(n, _ => []);
    for k := 0 to |edges|
      invariant |adj| == n && forall u: nat :: u < n ==> adj[u] == Incident(n, edges[..k], u)
    {
      hide Incident, HalvesOf;
      var (u, v) := edges[k];
      ghost var before := adj;
      if u < n && v < n {
        adj := adj[u := adj[u] + [Half(v, k, true)]];
        if u != v {
          adj := adj[v := adj[v] + [Half(u, k, false)]];
        }
      }
      forall w: nat | w < n
        ensures adj[w] == Incident(n, edges[..k + 1], w)
      {
        IncidentNext(n, edges, k, w);
        RowGrows(n, before, adj, edges[k], k, w);
      }
    }
    assert edges[..|edges|] == edges;
  }

  lemma Twice<T>(s: seq<T>, i: nat, j: nat)
    requires i < j < |s| && s[i] == s[j]
    ensures multiset(s)[s[i]] >= 2
  {
    assert s == s[..j] + s[j..];
    assert s[..j][i] == s[i] && s[j..][0] == s[j];
    assert s[i] in multiset(s[..j]) && s[j] in multiset(s[j..]);
  }

  /** Nothing is at two places of a row. */
  lemma OncePerRow(row: seq<Half>, n: nat, edges: seq<Edge>, u: nat, i: nat, j: nat)
    requires multiset(row) == multiset(Incident(n, edges, u)) && i < j < |row|
    ensures row[i] != row[j]
  {
    IncidentOnce(n, edges, u, row[i]);
    hide Incident;
    if row[i] == row[j] {
      Twice(row, i, j);
      assert false;
    }
  }

  /** The row a half-edge belongs to. */
  function Owner(edges: seq<Edge>, h: Half): nat
    requires h.k < |edges|
  {
    if h.forward then edges[h.k].0 else edges[h.k].1
  }

  /** Every placed half-edge is one of a row before `u`, recorded where it is. */
  ghost predicate Recorded(n: nat, edges: seq<Edge>, halves: seq<Half>, edgePos: seq<(nat, nat)>, u: nat) {
    && |edgePos| == |edges| && Bounded(edgePos, |halves|)
    && forall p :: 0 <= p < |halves| ==>
         && halves[p].k < |edges| && PosOf(edgePos, halves[p]) == p
         && IsHalf(n, edges, Owner(edges, halves[p]), halves[p]) && Owner(edges, halves[p]) < u
  }

  function Record(edgePos: seq<(nat, nat)>, h: Half, pos: nat): seq<(nat, nat)>
    requires h.k < |edgePos|
  {
    if h.forward then edgePos[h.k := (pos, edgePos[h.k].1)] else edgePos[h.k := (edgePos[h.k].0, pos)]
  }

  lemma RecordOne(n: nat, edges: seq<Edge>, halves: seq<Half>, edgePos: seq<(nat, nat)>, u: nat, h: Half)
    requires Recorded(n, edges, halves, edgePos, u + 1) && IsHalf(n, edges, u, h)
    requires h !in halves
    ensures h.k < |edgePos|
    ensures Recorded(n, edges, halves + [h], Record(edgePos, h, |halves|), u + 1)
  {
    forall p | 0 <= p < |halves|
      ensures PosOf(Record(edgePos, h, |halves|), halves[p]) == p
    {
      assert halves[p] != h;
    }
  }

  lemma NewInRow(n: nat, edges: seq<Edge>, halves: seq<Half>, edgePos: seq<(nat, nat)>, u: nat, row: seq<Half>, i: nat)
    requires Recorded(n, edges, halves, edgePos, u) && multiset(row) == multiset(Incident(n, edges, u)) && i < |row|
    ensures IsHalf(n, edges, u, row[i]) && row[i] !in halves + row[..i]
  {
    IncidentOnce(n, edges, u, row[i]);
    assert row[i] in multiset(row);
    forall j | 0 <= j < i
      ensures row[j] != row[i]
    {
      OncePerRow(row, n, edges, u, j, i);
    }
  }

  lemma RecordedLater(n: nat, edges: seq<Edge>, halves: seq<Half>, edgePos: seq<(nat, nat)>, u: nat)
    requires Recorded(n, edges, halves, edgePos, u)
    ensures Recorded(n, edges, halves, edgePos, u + 1)
  {
  }

  /** One row laid down after the earlier ones. */
  method LayRow(n: nat, ghost edges: seq<Edge>, row: seq<Half>, u: nat, col: seq<nat>, edgePos: seq<(nat, nat)>,
                ghost halves: seq<Half>)
    returns (col': seq<nat>, edgePos': seq<(nat, nat)>)
    requires Recorded(n, edges, halves, edgePos, u) && multiset(row) == multiset(Incident(n, edges, u))
    requires |col| == |halves| && forall p :: 0 <= p < |halves| ==> col[p] == halves[p].nbr
    ensures Recorded(n, edges, halves + row, edgePos', u + 1)
    ensures |col'| == |halves + row| && forall p :: 0 <= p < |col'| ==> col'[p] == (halves + row)[p].nbr
  {
    col', edgePos' := col, edgePos;
    hide Record, Recorded, Incident, IsHalf;
    assert halves + row[..0] == halves;
    RecordedLater(n, edges, halves, edgePos, u);
    for i := 0 to |row|
      invariant Recorded(n, edges, halves + row[..i], edgePos', u + 1)
      invariant |col'| == |halves| + i
      invariant forall p :: 0 <= p < |col'| ==> col'[p] == (halves + row)[p].nbr
    {
      NewInRow(n, edges, halves, edgePos, u, row, i);
      RecordOne(n, edges, halves + row[..i], edgePos', u, row[i]);
      assert halves + row[..i + 1] == halves + row[..i] + [row[i]];
      var pos := |col'|;
      col' := col' + [row[i].nbr];
      edgePos' := Record(edgePos', row[i], pos);
    }
    assert row[..|row|] == row;
  }

  /** Rows before `u` are laid: `starts` are their bounds. */
  ghost predicate Laid(n: nat, edges: seq<Edge>, halves: seq<Half>, starts: seq<nat>, u: nat) {
    && |starts| == u + 1 && starts[0] == 0 && starts[u] == |halves|
    && (forall v, w :: 0 <= v <= w <= u ==> starts[v] <= starts[w])
    && forall v :: 0 <= v < u ==> Row(starts[v], starts[v + 1], n, edges, halves, v)
  }

  lemma RowKept(from: nat, till: nat, n: nat, edges: seq<Edge>, halves: seq<Half>, more: seq<Half>, u: nat)
    requires Row(from, till, n, edges, halves, u)
    ensures Row(from, till, n, edges, halves + more, u)
  {
    assert (halves + more)[from..till] == halves[from..till];
    hide ByNeighbour, Incident;
  }

  lemma RowNew(n: nat, edges: seq<Edge>, halves: seq<Half>, row: seq<Half>, u: nat)
    requires ByNeighbour(row) && multiset(row) == multiset(Incident(n, edges, u))
    ensures Row(|halves|, |halves + row|, n, edges, halves + row, u)
  {
    assert (halves + row)[|halves|..|halves + row|] == row;
    hide ByNeighbour, Incident;
  }

  lemma LaidStep(n: nat, edges: seq<Edge>, halves: seq<Half>, starts: seq<nat>, u: nat, row: seq<Half>)
    requires Laid(n, edges, halves, starts, u)
    requires ByNeighbour(row) && multiset(row) == multiset(Incident(n, edges, u))
    ensures Laid(n, edges, halves + row, starts + [|halves + row|], u + 1)
  {
    hide Row, ByNeighbour, Incident;
    forall v | 0 <= v < u
      ensures Row(starts[v], starts[v + 1], n, edges, halves + row, v)
    {
      RowKept(starts[v], starts[v + 1], n, edges, halves, row, v);
    }
    RowNew(n, edges, halves, row, u);
  }

  /** With every row laid the topology compiles the edges. */
  lemma LaidCompiles(t: Csr, edges: seq<Edge>, halves: seq<Half>)
    requires |t.rowPtr| == t.n + 1 && t.Nnz() == |halves| && Laid(t.n, edges, halves, t.rowPtr, t.n)
    requires Recorded(t.n, edges, halves, t.edgePos, t.n)
    requires forall p :: 0 <= p < |halves| ==> t.col[p] == halves[p].nbr
    ensures Compiles(t, edges, halves)
  {
    hide Row, IsHalf;
  }

  /** The compressed rows, from the sorted adjacency. */
  method Build(n: nat, edges: seq<Edge>) returns (t: Csr, ghost halves: seq<Half>)
    ensures t.n == n && Compiles(t, edges, halves)
  {
    var adj := Adjacency(n, edges);
    var rowPtr: seq<nat>, col: seq<nat> := seq(n + 1, _ => 0), [];
    var edgePos: seq<(nat, nat)> := seq(|edges|, _ => (0, 0));
    halves := [];
    assert Recorded(n, edges, [], edgePos, 0) && Laid(n, edges, [], [0], 0);
    hide Recorded, Laid, Incident, Compiles;
    for u := 0 to n
      invariant |rowPtr| == n + 1 && |col| == |halves|
      invariant forall p :: 0 <= p < |col| ==> col[p] == halves[p].nbr
      invariant Recorded(n, edges, halves, edgePos, u)
      invariant Laid(n, edges, halves, rowPtr[..u] + [|col|], u)
    {
      var row := SortRow(adj[u]);
      LaidStep(n, edges, halves, rowPtr[..u] + [|col|], u, row);
      rowPtr := rowPtr[u := |col|];
      col, edgePos := LayRow(n, edges, row, u, col, edgePos, halves);
      halves := halves + row;
      assert rowPtr[..u + 1] == rowPtr[..u] + [rowPtr[u]];
    }
    assert rowPtr[n := |col|] == rowPtr[..n] + [|col|];
    rowPtr := rowPtr[n := |col|];
    LaidCompiles(Csr(n, rowPtr, col, edgePos), edges, halves);
    t := Csr(n, rowPtr, col, edgePos);
  }

  // Coefficients.

  /** A truncating cast to a signed byte, saturating: the whole part towards zero
      where that is a byte. */
  function Quantize(v: real): (q: int)
    ensures -128 <= q <= 127
    ensures 0.0 <= v < 128.0 ==> q as real <= v < q as real + 1.0
    ensures -129.0 < v <= 0.0 ==> q as real - 1.0 < v <= q as real
    ensures (v >= 128.0 ==> q == 127) && (v <= -129.0 ==> q == -128)
  {
    var whole := if v >= 0.0 then v.Floor else -((-v).Floor);
    if whole < -128 then -128 else if whole > 127 then 127 else whole
  }

  datatype Graph = Graph(h: seq<real>, j: seq<real>, edges: seq<Edge>)

  /** The coefficient of edge `k`: zero when the list of couplings is short. */
  function Coupling(g: Graph, k: nat): int {
    Quantize(if k < |g.j| then g.j[k] else 0.0)
  }

  ghost function CouplingsOf(g: Graph): nat -> int {
    (k: nat) => Coupling(g, k)
  }

  ghost function UnitsOf(units: seq<int>): nat -> int {
    (k: nat) => if k < |units| then units[k] else 0
  }

  /** Every write of the fill lands inside the couplings. */
  predicate Indexable(t: Csr, edges: seq<Edge>) {
    forall k :: 0 <= k < |t.edgePos| && k < |edges| && InRange(t.n, edges[k]) ==>
      && t.edgePos[k].0 < t.Nnz()
      && (edges[k].0 != edges[k].1 ==> t.edgePos[k].1 < t.Nnz())
  }

  /** Position `p` holds `value` of the edge whose half-edge is there. */
  ghost predicate Filled(csr: seq<int>, halves: seq<Half>, value: nat -> int) {
    |csr| == |halves| && forall p :: 0 <= p < |halves| ==> csr[p] == value(halves[p].k)
  }

  /** Positions of half-edges of the first `m` edges hold their value, the rest
      are still zero. */
  ghost predicate FilledUpTo(csr: seq<int>, halves: seq<Half>, value: nat -> int, m: nat) {
    && |csr| == |halves|
    && forall p :: 0 <= p < |halves| ==> csr[p] == if halves[p].k < m then value(halves[p].k) else 0
  }

  /** Positions of an edge's two half-edges; no other edge is there. */
  lemma EdgePositions(t: Csr, edges: seq<Edge>, halves: seq<Half>, k: nat)
    requires Compiles(t, edges, halves) && k < |edges| && InRange(t.n, edges[k])
    ensures var (u, v) := edges[k]; var (i, j) := t.edgePos[k];
            && i < t.Nnz() && halves[i] == Half(v, k, true)
            && (u != v ==> j < t.Nnz() && j != i && halves[j] == Half(u, k, false))
            && forall p :: 0 <= p < |halves| && halves[p].k == k ==> p == i || (u != v && p == j)
  {
    var (u, v) := edges[k];
    HalfInRow(t, edges, halves, u, Half(v, k, true));
    if u != v {
      HalfInRow(t, edges, halves, v, Half(u, k, false));
    }
    forall p | 0 <= p < |halves| && halves[p].k == k
      ensures p == t.edgePos[k].0 || (u != v && p == t.edgePos[k].1)
    {
      PlacedHalf(t, edges, halves, p);
    }
  }

  lemma {:induction false} RowOfPosition(rowPtr: seq<nat>, n: nat, nnz: nat, p: nat, m: nat) returns (u: nat)
    requires Rows(rowPtr, n, nnz) && m <= n && p < rowPtr[m]
    ensures u < m && rowPtr[u] <= p < rowPtr[u + 1]
  {
    if rowPtr[m - 1] <= p {
      u := m - 1;
    } else {
      u := RowOfPosition(rowPtr, n, nnz, p, m - 1);
    }
  }

  /** Whatever stands at a position is a half-edge of an edge in range. */
  lemma PlacedHalf(t: Csr, edges: seq<Edge>, halves: seq<Half>, p: nat)
    requires Compiles(t, edges, halves) && p < |halves|
    ensures halves[p].k < |edges| && InRange(t.n, edges[halves[p].k])
    ensures !halves[p].forward ==> edges[halves[p].k].0 != edges[halves[p].k].1
    ensures PosOf(t.edgePos, halves[p]) == p
  {
    var u := RowOfPosition(t.rowPtr, t.n, t.Nnz(), p, t.n);
    RowMember(t.rowPtr[u], t.rowPtr[u + 1], t.n, edges, halves, u, p);
  }

  /** Filling any edge list never indexes past the couplings exactly when there
      are couplings, or no edge in range asks for one. */
  lemma IndexableIff(t: Csr, establishing: seq<Edge>, halves: seq<Half>, edges: seq<Edge>)
    requires Compiles(t, establishing, halves)
    ensures Indexable(t, edges) <==>
              (t.Nnz() > 0 || forall k :: 0 <= k < |establishing| && k < |edges| ==> !InRange(t.n, edges[k]))
  {
    hide Row, Rows, PosOf;
    if t.Nnz() == 0 && Indexable(t, edges) {
      forall k | 0 <= k < |establishing| && k < |edges|
        ensures !InRange(t.n, edges[k])
      {
        assert k < |t.edgePos|;
      }
    }
  }

  /** A fill with the establishing edges always indexes inside. */
  lemma EstablishingIndexable(t: Csr, edges: seq<Edge>, halves: seq<Half>)
    requires Compiles(t, edges, halves)
    ensures Indexable(t, edges)
  {
    forall k | 0 <= k < |edges| && InRange(t.n, edges[k])
      ensures t.edgePos[k].0 < t.Nnz() && (edges[k].0 != edges[k].1 ==> t.edgePos[k].1 < t.Nnz())
    {
      EdgePositions(t, edges, halves, k);
    }
  }

  /** Two nodes whose only establishing edge is out of range, then a job with an
      edge in range: the fill would index an empty list of couplings. */
  lemma MismatchIndexesPast()
    ensures exists t: Csr, halves: seq<Half> ::
              Compiles(t, [(5, 5)], halves) && t.n == 2 && !Indexable(t, [(0, 1)])
  {
    var t := Csr(2, [0, 0, 0], [], [(0, 0)]);
    EmptyCompiles(t);
    hide Compiles;
    assert InRange(2, [(0, 1)][0]);
  }

  lemma EmptyCompiles(t: Csr)
    requires t == Csr(2, [0, 0, 0], [], [(0, 0)])
    ensures Compiles(t, [(5, 5)], [])
  {
    hide Incident, Row;
    forall u: nat | u < 2
      ensures Row(0, 0, 2, [(5, 5)], [], u)
    {
      EmptyRow(u);
    }
  }

  lemma EmptyRow(u: nat)
    ensures Row(0, 0, 2, [(5, 5)], [], u)
  {
    NoneIncident(2, (5, 5), u);
    hide Incident;
  }

  lemma NoneIncident(n: nat, e: Edge, u: nat)
    requires !InRange(n, e)
    ensures Incident(n, [e], u) == []
  {
    assert [e][..0] == [];
  }

  /** What one edge of the source's fill does. */
  function Write(csr: seq<int>, t: Csr, edges: seq<Edge>, k: nat, val: int): (r: seq<int>)
    requires |csr| == t.Nnz() && Indexable(t, edges) && k < |t.edgePos| && k < |edges|
    ensures |r| == |csr|
  {
    if !InRange(t.n, edges[k]) then csr
    else
      var once := csr[t.edgePos[k].0 := val];
      if edges[k].0 != edges[k].1 then once[t.edgePos[k].1 := val] else once
  }

  lemma FillStep(t: Csr, edges: seq<Edge>, halves: seq<Half>, csr: seq<int>, value: nat -> int, k: nat)
    requires Compiles(t, edges, halves) && Indexable(t, edges) && k < |edges|
    requires FilledUpTo(csr, halves, value, k)
    ensures FilledUpTo(Write(csr, t, edges, k, value(k)), halves, value, k + 1)
  {
    if InRange(t.n, edges[k]) {
      EdgePositions(t, edges, halves, k);
    }
    forall p | 0 <= p < |halves|
      ensures halves[p].k == k ==> InRange(t.n, edges[k])
    {
      PlacedHalf(t, edges, halves, p);
    }
    hide Compiles, InRange;
  }

  lemma FillEnd(t: Csr, edges: seq<Edge>, halves: seq<Half>, csr: seq<int>, value: nat -> int)
    requires Compiles(t, edges, halves) && FilledUpTo(csr, halves, value, |edges|)
    ensures Filled(csr, halves, value)
  {
  }

  /** The fill of the source: couplings by recorded position, fields by node,
      and whether every edge was the one expected. */
  method FillInspecting(t: Csr, g: Graph, expected: seq<Edge>, ghost establishing: seq<Edge>, ghost halves: seq<Half>)
    returns (csr: seq<int>, h: seq<int>, same: bool)
    requires Compiles(t, establishing, halves) && Indexable(t, g.edges) && |expected| == |t.edgePos|
    ensures |csr| == t.Nnz() && |h| == |g.h|
    ensures forall i :: 0 <= i < |h| ==> h[i] == Quantize(g.h[i])
    ensures same <==> forall k :: 0 <= k < |expected| && k < |g.edges| ==> g.edges[k] == expected[k]
    ensures g.edges == establishing ==> Filled(csr, halves, CouplingsOf(g))
  {
    csr := seq(t.Nnz(), _ => 0);
    same := true;
    ghost var value := CouplingsOf(g);
    hide Filled, FilledUpTo, Quantize, InRange, Row, Rows, Bounded, PosOf;
    assert FilledUpTo(csr, halves, value, 0) by {
      ZeroFilled(csr, halves, value);
    }
    for k := 0 to |t.edgePos|
      invariant |csr| == t.Nnz()
      invariant same <==> forall i :: 0 <= i < k && i < |g.edges| ==> g.edges[i] == expected[i]
      invariant g.edges == establishing ==> FilledUpTo(csr, halves, value, k)
    {
      if k < |g.edges| {
        if g.edges[k] != expected[k] {
          same := false;
        }
        if g.edges == establishing {
          FillStep(t, g.edges, halves, csr, value, k);
        }
        csr := WriteEdge(csr, t, g.edges, k, Coupling(g, k));
      }
    }
    if g.edges == establishing {
      FillEnd(t, g.edges, halves, csr, value);
    }
    h := seq(|g.h|, i requires 0 <= i < |g.h| => Quantize(g.h[i]));
  }

  lemma ZeroFilled(csr: seq<int>, halves: seq<Half>, value: nat -> int)
    requires |csr| == |halves| && forall p :: 0 <= p < |csr| ==> csr[p] == 0
    ensures FilledUpTo(csr, halves, value, 0)
  {
  }

  method WriteEdge(csr: seq<int>, t: Csr, edges: seq<Edge>, k: nat, val: int) returns (r: seq<int>)
    requires |csr| == t.Nnz() && Indexable(t, edges) && k < |t.edgePos| && k < |edges|
    ensures r == Write(csr, t, edges, k, val)
  {
    r := csr;
    var (u, v) := edges[k];
    if u >= t.n || v >= t.n {
      return;
    }
    r := r[t.edgePos[k].0 := val];
    if u != v {
      r := r[t.edgePos[k].1 := val];
    }
  }

  /** Coefficients only for exactly the establishing edges, and then the same
      ones the plain fill gives. */
  method FillMatching(t: Csr, edges: seq<Edge>, g: Graph, ghost halves: seq<Half>)
    returns (r: Option<(seq<int>, seq<int>)>)
    requires Compiles(t, edges, halves)
    requires |g.h| == t.n && |g.edges| == |edges| ==> Indexable(t, g.edges)
    ensures r.Some? <==> |g.h| == t.n && g.edges == edges
    ensures r.Some? ==> Filled(r.value.0, halves, CouplingsOf(g))
    ensures r.Some? ==> |r.value.1| == t.n && forall i :: 0 <= i < t.n ==> r.value.1[i] == Quantize(g.h[i])
  {
    hide Filled, Quantize, Row, Rows, Bounded, PosOf, Indexable;
    if |g.h| != t.n || |g.edges| != |edges| || |t.edgePos| != |edges| {
      return None;
    }
    var csr, h, same := FillInspecting(t, g, edges, edges, halves);
    return if same then Some((csr, h)) else None;
  }

  /** The fast fill from whole units writes both positions of every edge with
      no test. Where no edge is a loop or out of range it is the same fill. */
  method FillCouplings(t: Csr, units: seq<int>, ghost edges: seq<Edge>, ghost halves: seq<Half>) returns (csr: seq<int>)
    requires Compiles(t, edges, halves) && |units| == |t.edgePos|
    requires forall k :: 0 <= k < |edges| ==> InRange(t.n, edges[k]) && edges[k].0 != edges[k].1
    ensures Filled(csr, halves, UnitsOf(units))
  {
    csr := seq(t.Nnz(), _ => 0);
    EstablishingIndexable(t, edges, halves);
    ghost var value := UnitsOf(units);
    ZeroFilled(csr, halves, value);
    hide Filled, FilledUpTo, Row, Rows, Bounded, PosOf;
    for k := 0 to |t.edgePos|
      invariant |csr| == t.Nnz() && FilledUpTo(csr, halves, value, k)
    {
      FillStep(t, edges, halves, csr, value, k);
      csr := csr[t.edgePos[k].0 := units[k]];
      csr := csr[t.edgePos[k].1 := units[k]];
    }
    FillEnd(t, edges, halves, csr, value);
  }

  /** Both fills of the same couplings agree. */
  lemma FillsAgree(fast: seq<int>, slow: seq<int>, t: Csr, g: Graph, units: seq<int>, halves: seq<Half>)
    requires Compiles(t, g.edges, halves) && |units| == |g.edges|
    requires forall k :: 0 <= k < |g.edges| ==> units[k] == Coupling(g, k)
    requires Filled(fast, halves, UnitsOf(units))
    requires Filled(slow, halves, CouplingsOf(g))
    ensures fast == slow
  {
  }
}
