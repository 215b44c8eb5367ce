/**
 * Which engine may take a job (src/combined.rs): structural facts cached per
 * edge list, and a shortcut past the nonzero-coupling degree loop.
 */
module Eligibility {
  import opened LocalFields
  import opened Topology
  import opened Wrappers

  datatype Facts = Facts(inBounds: bool, simple: bool, degreeOk: bool)

  function Undirected(e: Edge): Edge {
    if e.0 <= e.1 then e else (e.1, e.0)
  }

  predicate InBounds(n: nat, edges: seq<Edge>) {
    forall k :: 0 <= k < |edges| ==> InRange(n, edges[k])
  }

  /** Among edges in range: no self-loop, no undirected edge twice. */
  predicate Simple(n: nat, edges: seq<Edge>) {
    && (forall k :: 0 <= k < |edges| && InRange(n, edges[k]) ==> edges[k].0 != edges[k].1)
    && forall k, l :: 0 <= k < l < |edges| && InRange(n, edges[k]) && InRange(n, edges[l]) ==>
         Undirected(edges[k]) != Undirected(edges[l])
  }

  predicate DegreeOk(n: nat, edges: seq<Edge>) {
    forall u: nat :: u < n ==> Degree(n, edges, u) <= DEGREE_LIMIT
  }

  function FactsOf(n: nat, edges: seq<Edge>): Facts {
    Facts(InBounds(n, edges), Simple(n, edges), DegreeOk(n, edges))
  }

  /** Every undirected edge met so far, self-loops left out. */
  function SeenOf(n: nat, edges: seq<Edge>): set<Edge> {
    if edges == [] then {}
    else
      var e := edges[|edges| - 1];
      SeenOf(n, edges[..|edges| - 1]) + if InRange(n, e) && e.0 != e.1 then {Undirected(e)} else {}
  }

  lemma {:induction false} SeenMember(n: nat, edges: seq<Edge>, e: Edge)
    ensures e in SeenOf(n, edges) <==>
              exists i :: 0 <= i < |edges| && InRange(n, edges[i]) && edges[i].0 != edges[i].1 && Undirected(edges[i]) == e
  {
    if edges != [] {
      var rest := edges[..|edges| - 1];
      SeenMember(n, rest, e);
      if i :| 0 <= i < |edges| && InRange(n, edges[i]) && edges[i].0 != edges[i].1 && Undirected(edges[i]) == e {
        if i < |rest| {
          assert rest[i] == edges[i];
        }
      }
    }
  }

  lemma SimpleStep(n: nat, edges: seq<Edge>, k: nat)
    requires k < |edges|
    ensures Simple(n, edges[..k + 1]) <==>
              Simple(n, edges[..k])
              && (InRange(n, edges[k]) ==> edges[k].0 != edges[k].1 && Undirected(edges[k]) !in SeenOf(n, edges[..k]))
  {
    var before, after := edges[..k], edges[..k + 1];
    SeenMember(n, before, Undirected(edges[k]));
    hide SeenOf, Undirected;
    assert after[k] == edges[k] && forall i :: 0 <= i < k ==> after[i] == before[i];
  }

  lemma SeenStep(n: nat, edges: seq<Edge>, k: nat)
    requires k < |edges|
    ensures SeenOf(n, edges[..k + 1])
         == SeenOf(n, edges[..k]) + if InRange(n, edges[k]) && edges[k].0 != edges[k].1 then {Undirected(edges[k])} else {}
  {
    assert edges[..k + 1][..k] == edges[..k];
  }

  lemma DegreeOkStep(n: nat, edges: seq<Edge>, k: nat)
    requires k < |edges|
    ensures DegreeOk(n, edges[..k + 1]) <==>
              DegreeOk(n, edges[..k])
              && (InRange(n, edges[k]) ==> Degree(n, edges[..k + 1], edges[k].0) <= DEGREE_LIMIT
                                           && Degree(n, edges[..k + 1], edges[k].1) <= DEGREE_LIMIT)
  {
    forall u: nat | u < n
      ensures Degree(n, edges[..k + 1], u) == Degree(n, edges[..k], u) + Ends(n, edges[k], u)
    {
      DegreeStep(n, edges, k, u);
    }
    hide Degree;
    if DegreeOk(n, edges[..k + 1]) {
      forall u: nat | u < n
        ensures Degree(n, edges[..k], u) <= DEGREE_LIMIT
      {
        assert Degree(n, edges[..k + 1], u) <= DEGREE_LIMIT;
      }
    } else {
      var u: nat :| u < n && Degree(n, edges[..k + 1], u) > DEGREE_LIMIT;
      assert DegreeOk(n, edges[..k]) ==> Degree(n, edges[..k], u) <= DEGREE_LIMIT;
    }
  }

  /** The state of the source's pass after `edges`. */
  datatype Scan = Scan(degree: seq<nat>, seen: set<Edge>, facts: Facts)

  predicate Scanned(s: Scan, n: nat, edges: seq<Edge>) {
    && |s.degree| == n && (forall u: nat :: u < n ==> s.degree[u] == Degree(n, edges, u))
    && s.seen == SeenOf(n, edges) && s.facts == FactsOf(n, edges)
  }

  function Counted(n: nat, degree: seq<nat>, e: Edge): (d: seq<nat>)
    requires |degree| == n && InRange(n, e)
    ensures |d| == n && forall u: nat :: u < n ==> d[u] == degree[u] + Ends(n, e, u)
  {
    var once := degree[e.0 := degree[e.0] + 1];
    if e.0 != e.1 then once[e.1 := once[e.1] + 1] else once
  }

  /** What one more edge does to every fact. */
  lemma OneMore(n: nat, edges: seq<Edge>, e: Edge)
    ensures InBounds(n, edges + [e]) <==> InBounds(n, edges) && InRange(n, e)
    ensures forall u: nat :: u < n ==> Degree(n, edges + [e], u) == Degree(n, edges, u) + Ends(n, e, u)
    ensures DegreeOk(n, edges + [e]) <==>
              DegreeOk(n, edges)
              && (InRange(n, e) ==> Degree(n, edges + [e], e.0) <= DEGREE_LIMIT
                                    && Degree(n, edges + [e], e.1) <= DEGREE_LIMIT)
    ensures Simple(n, edges + [e]) <==>
              Simple(n, edges) && (InRange(n, e) ==> e.0 != e.1 && Undirected(e) !in SeenOf(n, edges))
    ensures SeenOf(n, edges + [e])
         == SeenOf(n, edges) + if InRange(n, e) && e.0 != e.1 then {Undirected(e)} else {}
  {
    var all, k := edges + [e], |edges|;
    assert all[..k] == edges && all[..k + 1] == all && all[k] == e;
    DegreeOkStep(n, all, k);
    SimpleStep(n, all, k);
    SeenStep(n, all, k);
    hide Simple, DegreeOk, Degree, SeenOf, Undirected;
    forall u: nat | u < n
      ensures Degree(n, all, u) == Degree(n, edges, u) + Ends(n, e, u)
    {
      DegreeStep(n, all, k, u);
    }
  }

  /** One edge of the pass. */
  method Visit(s: Scan, n: nat, ghost edges: seq<Edge>, e: Edge) returns (r: Scan)
    requires Scanned(s, n, edges)
    ensures Scanned(r, n, edges + [e])
  {
    OneMore(n, edges, e);
    hide Simple, DegreeOk, Degree, SeenOf, Undirected, InBounds;
    var (u, v) := e;
    if u >= n || v >= n {
      r := s.(facts := s.facts.(inBounds := false));
      return;
    }
    var degree := Counted(n, s.degree, e);
    var degreeOk := s.facts.degreeOk && degree[u] <= DEGREE_LIMIT && degree[v] <= DEGREE_LIMIT;
    var simple := s.facts.simple && u != v && Undirected(e) !in s.seen;
    var seen := if u != v then s.seen + {Undirected(e)} else s.seen;
    r := Scan(degree, seen, Facts(s.facts.inBounds, simple, degreeOk));
  }

  /** The source's single pass over the edges. */
  method EdgeFactsOf(n: nat, edges: seq<Edge>) returns (f: Facts)
    ensures f == FactsOf(n, edges)
  {
    var s := Scan(seq(n, _ => 0), {}, Facts(true, true, true));
    EmptyScan(s, n, edges);
    hide Scanned, FactsOf;
    for k := 0 to |edges|
      invariant Scanned(s, n, edges[..k])
    {
      s := Visit(s, n, edges[..k], edges[k]);
      TakeNext(edges, k);
    }
    ScannedFacts(s, n, edges);
    f := s.facts;
  }

  lemma TakeNext(edges: seq<Edge>, k: nat)
    requires k < |edges|
    ensures edges[..k + 1] == edges[..k] + [edges[k]]
  {
  }

  lemma ScannedFacts(s: Scan, n: nat, edges: seq<Edge>)
    requires Scanned(s, n, edges[..|edges|])
    ensures s.facts == FactsOf(n, edges)
  {
    assert edges[..|edges|] == edges;
  }

  lemma EmptyScan(s: Scan, n: nat, edges: seq<Edge>)
    requires |s.degree| == n && (forall u: nat :: u < n ==> s.degree[u] == 0) && s.seen == {}
    requires s.facts == Facts(true, true, true)
    ensures Scanned(s, n, edges[..0])
  {
    assert edges[..0] == [];
  }

  /** The facts of the latest edge list. */
  class FactsCache {
    var n: nat
    var edges: seq<Edge>
    var facts: Option<Facts>

    predicate Valid()
      reads this
    {
      facts.Some? ==> facts.value == FactsOf(n, edges)
    }

    constructor ()
      ensures Valid()
    {
      n, edges, facts := 0, [], None;
    }

    /** Cached or not, the facts are those of the list asked about. */
    method Get(n: nat, edges: seq<Edge>) returns (f: Facts)
      requires Valid()
      modifies this
      ensures Valid() && f == FactsOf(n, edges)
      ensures this.n == n && this.edges == edges && facts == Some(f)
    {
      if facts.Some? && this.n == n && this.edges == edges {
        return facts.value;
      }
      f := EdgeFactsOf(n, edges);
      this.n, this.edges, facts := n, edges, Some(f);
    }
  }

  // Couplings.

  predicate Unit(x: real) {
    x == -1.0 || x == 0.0 || x == 1.0
  }

  /** Ends of edges with a nonzero coupling at `u`. */
  function NonzeroDegree(n: nat, edges: seq<Edge>, j: seq<real>, u: nat): nat
    requires |j| == |edges|
  {
    if edges == [] then 0
    else
      var last := |edges| - 1;
      NonzeroDegree(n, edges[..last], j[..last], u) + if j[last] != 0.0 then Ends(n, edges[last], u) else 0
  }

  lemma {:induction false} NonzeroAtMost(n: nat, edges: seq<Edge>, j: seq<real>, u: nat)
    requires |j| == |edges|
    ensures NonzeroDegree(n, edges, j, u) <= Degree(n, edges, u)
  {
    if edges != [] {
      NonzeroAtMost(n, edges[..|edges| - 1], j[..|edges| - 1], u);
      assert edges[..|edges|] == edges;
      DegreeStepAt(n, edges, |edges| - 1, u);
    }
  }

  lemma DegreeStepAt(n: nat, edges: seq<Edge>, k: nat, u: nat)
    requires k + 1 == |edges|
    ensures Degree(n, edges, u) == Degree(n, edges[..k], u) + Ends(n, edges[k], u)
  {
  }

  /** Couplings the matrix engine accepts: unit values, and few enough nonzero
      ones at every node. */
  predicate CouplingsOk(n: nat, edges: seq<Edge>, j: seq<real>)
    requires |j| == |edges|
  {
    && (forall k :: 0 <= k < |j| ==> Unit(j[k]))
    && forall u: nat :: u < n ==> NonzeroDegree(n, edges, j, u) <= DEGREE_LIMIT
  }

  lemma NonzeroStep(n: nat, edges: seq<Edge>, j: seq<real>, k: nat, u: nat)
    requires |j| == |edges| && k < |edges|
    ensures NonzeroDegree(n, edges[..k + 1], j[..k + 1], u)
         == NonzeroDegree(n, edges[..k], j[..k], u) + if j[k] != 0.0 then Ends(n, edges[k], u) else 0
  {
    assert edges[..k + 1][..k] == edges[..k] && j[..k + 1][..k] == j[..k];
  }

  lemma {:induction false} NonzeroGrows(n: nat, edges: seq<Edge>, j: seq<real>, k: nat, u: nat)
    requires |j| == |edges| && k <= |edges|
    ensures NonzeroDegree(n, edges[..k], j[..k], u) <= NonzeroDegree(n, edges, j, u)
    decreases |edges| - k
  {
    if k == |edges| {
      assert edges[..k] == edges && j[..k] == j;
    } else {
      NonzeroGrows(n, edges, j, k + 1, u);
      NonzeroStep(n, edges, j, k, u);
    }
  }

  /** The nonzero degrees of the first `k` edges, none above the limit. */
  predicate Tallied(n: nat, edges: seq<Edge>, j: seq<real>, k: nat, degree: seq<nat>)
    requires |j| == |edges| && k <= |edges|
  {
    && |degree| == n
    && (forall u: nat :: u < n ==> degree[u] == NonzeroDegree(n, edges[..k], j[..k], u))
    && forall u: nat :: u < n ==> degree[u] <= DEGREE_LIMIT
  }

  lemma TalliedNone(n: nat, edges: seq<Edge>, j: seq<real>, degree: seq<nat>)
    requires |j| == |edges| && |degree| == n && forall u: nat :: u < n ==> degree[u] == 0
    ensures Tallied(n, edges, j, 0, degree)
  {
    hide NonzeroDegree;
    forall u: nat | u < n
      ensures NonzeroDegree(n, edges[..0], j[..0], u) == 0
    {
      NoNonzero(n, edges, j, u);
    }
  }

  /** One more edge: within the limit the tally goes on, else the list fails. */
  lemma TalliedNext(n: nat, edges: seq<Edge>, j: seq<real>, k: nat, degree: seq<nat>)
    requires |j| == |edges| && k < |edges| && InRange(n, edges[k]) && Tallied(n, edges, j, k, degree)
    ensures j[k] == 0.0 ==> Tallied(n, edges, j, k + 1, degree)
    ensures j[k] != 0.0 ==>
              var more, (u, v) := Counted(n, degree, edges[k]), edges[k];
              if more[u] > DEGREE_LIMIT || more[v] > DEGREE_LIMIT then !CouplingsOk(n, edges, j)
              else Tallied(n, edges, j, k + 1, more)
  {
    hide NonzeroDegree, Unit, Counted;
    forall u: nat | u < n
      ensures NonzeroDegree(n, edges[..k + 1], j[..k + 1], u)
           == degree[u] + if j[k] != 0.0 then Ends(n, edges[k], u) else 0
    {
      NonzeroStep(n, edges, j, k, u);
    }
    var (u, v) := edges[k];
    NonzeroGrows(n, edges, j, k + 1, u);
    NonzeroGrows(n, edges, j, k + 1, v);
  }

  lemma TalliedAll(n: nat, edges: seq<Edge>, j: seq<real>, degree: seq<nat>)
    requires |j| == |edges| && Tallied(n, edges, j, |edges|, degree) && forall k :: 0 <= k < |j| ==> Unit(j[k])
    ensures CouplingsOk(n, edges, j)
  {
    hide NonzeroDegree, Unit;
    assert edges[..|edges|] == edges && j[..|edges|] == j;
  }

  /** The nonzero-coupling degree loop, leaving at the first refusal. */
  method CheckCouplings(n: nat, edges: seq<Edge>, j: seq<real>) returns (ok: bool)
    requires |j| == |edges| && InBounds(n, edges) && Simple(n, edges)
    ensures ok == CouplingsOk(n, edges, j)
  {
    hide NonzeroDegree, Tallied, Simple, Counted;
    var degree: seq<nat> := seq(n, _ => 0);
    TalliedNone(n, edges, j, degree);
    for k := 0 to |edges|
      invariant Tallied(n, edges, j, k, degree) && |degree| == n
      invariant forall i :: 0 <= i < k ==> Unit(j[i])
    {
      if !Unit(j[k]) {
        return false;
      }
      TalliedNext(n, edges, j, k, degree);
      if j[k] != 0.0 {
        degree := Counted(n, degree, edges[k]);
        var (u, v) := edges[k];
        if degree[u] > DEGREE_LIMIT || degree[v] > DEGREE_LIMIT {
          return false;
        }
      }
    }
    TalliedAll(n, edges, j, degree);
    return true;
  }

  lemma NoNonzero(n: nat, edges: seq<Edge>, j: seq<real>, u: nat)
    requires |j| == |edges|
    ensures NonzeroDegree(n, edges[..0], j[..0], u) == 0
  {
  }

  /** Within the structural limit only the values need checking. */
  lemma ShortcutIsEnough(n: nat, edges: seq<Edge>, j: seq<real>)
    requires |j| == |edges| && DegreeOk(n, edges)
    ensures CouplingsOk(n, edges, j) <==> forall k :: 0 <= k < |j| ==> Unit(j[k])
  {
    forall u: nat | u < n
      ensures NonzeroDegree(n, edges, j, u) <= DEGREE_LIMIT
    {
      NonzeroAtMost(n, edges, j, u);
    }
  }

  // Eligibility.

  datatype Kernel = Sa | Msa | Gibbs

  datatype Config = Config(valid: bool, enableAne: bool, enableMetal: bool)

  datatype Params = Params(numReads: nat, sweeps: nat, sweepsPerBeta: nat, betaRange: Option<(real, real)>)

  function KernelMaxNodes(kernel: Kernel): nat {
    match kernel
    case Sa => 4593
    case Msa => 6016
    case Gibbs => 4800
  }

  const DEFAULT_MAX_EDGES: nat := 1_000_000
  const MAX_SWEEPS: nat := 1_048_576
  const ANE_MAX_NODES: nat := 16_384
  const ANE_MAX_EDGES: nat := 163_840
  const ANE_MAX_SWEEPS: nat := 65_536
  const ANE_MAX_READS: nat := 128

  predicate ConfigurationError(kernel: Kernel, cfg: Config) {
    !cfg.valid || (!cfg.enableMetal && (!cfg.enableAne || kernel != Msa))
  }

  /** A valid configuration is an error exactly when it leaves no engine for the
      kernel. */
  lemma SomeEngineEnabled(kernel: Kernel, cfg: Config)
    ensures !ConfigurationError(kernel, cfg) <==> cfg.valid && (cfg.enableMetal || (cfg.enableAne && kernel == Msa))
  {
  }

  /** The GPU engine takes a job within its limits; MSA also needs the prefetch
      degree. */
  predicate MetalTakes(kernel: Kernel, g: Graph, p: Params, cfg: Config) {
    && !ConfigurationError(kernel, cfg) && cfg.enableMetal
    && |g.h| <= KernelMaxNodes(kernel) && |g.edges| <= DEFAULT_MAX_EDGES && p.sweeps <= MAX_SWEEPS
    && (kernel == Msa ==> DegreeOk(|g.h|, g.edges))
  }

  /** The matrix engine takes MSA jobs with unit coefficients on simple graphs of
      bounded nonzero degree. No shortcut and no cache here. */
  predicate AneTakes(kernel: Kernel, g: Graph, p: Params, cfg: Config) {
    && !ConfigurationError(kernel, cfg) && cfg.enableAne && kernel == Msa
    && |g.h| <= ANE_MAX_NODES && |g.edges| <= ANE_MAX_EDGES && |g.j| == |g.edges|
    && 1 <= p.numReads <= ANE_MAX_READS && p.sweeps <= ANE_MAX_SWEEPS && p.sweepsPerBeta > 0
    && (p.betaRange.Some? ==> p.betaRange.value.0 > 0.0 && p.betaRange.value.1 >= p.betaRange.value.0)
    && (forall i :: 0 <= i < |g.h| ==> Unit(g.h[i]))
    && InBounds(|g.h|, g.edges) && Simple(|g.h|, g.edges)
    && CouplingsOk(|g.h|, g.edges, g.j)
  }

  method AllUnit(xs: seq<real>) returns (ok: bool)
    ensures ok <==> forall i :: 0 <= i < |xs| ==> Unit(xs[i])
  {
    for i := 0 to |xs|
      invariant forall k :: 0 <= k < i ==> Unit(xs[k])
    {
      if !Unit(xs[i]) {
        return false;
      }
    }
    return true;
  }

  /** The source's decision, with cached facts and the degree shortcut, is the
      plain one. */
  method Eligible(kernel: Kernel, g: Graph, p: Params, cfg: Config, cache: FactsCache) returns (metal: bool, ane: bool)
    requires cache.Valid()
    modifies cache
    ensures cache.Valid()
    ensures metal == MetalTakes(kernel, g, p, cfg) && ane == AneTakes(kernel, g, p, cfg)
  {
    if ConfigurationError(kernel, cfg) {
      return false, false;
    }
    hide CouplingsOk, InBounds, Simple, DegreeOk, Unit;
    var n := |g.h|;
    metal := cfg.enableMetal && n <= KernelMaxNodes(kernel) && |g.edges| <= DEFAULT_MAX_EDGES && p.sweeps <= MAX_SWEEPS;
    ane := cfg.enableAne && kernel == Msa && n <= ANE_MAX_NODES && |g.edges| <= ANE_MAX_EDGES && |g.j| == |g.edges|
           && 1 <= p.numReads <= ANE_MAX_READS && p.sweeps <= ANE_MAX_SWEEPS && p.sweepsPerBeta > 0;
    if !metal && !ane {
      return false, false;
    }
    if p.betaRange.Some? {
      var (hot, cold) := p.betaRange.value;
      ane := ane && hot > 0.0 && cold >= hot;
    }
    var unitFields := AllUnit(g.h);
    ane := ane && unitFields;
    if kernel != Msa {
      return metal, false;
    }
    var facts := cache.Get(n, g.edges);
    metal := metal && facts.degreeOk;
    ane := ane && facts.inBounds && facts.simple;
    if ane && facts.degreeOk {
      ShortcutIsEnough(n, g.edges, g.j);
      ane := AllUnit(g.j);
    } else if ane {
      ane := CheckCouplings(n, g.edges, g.j);
    }
  }
}
