/**
 * Greedy colouring over compressed rows (src/topology.rs): proper, within the
 * largest degree plus one, and laid out by colour.
 */
module Coloring {
  import opened LocalFields
  import opened Sorting
  import opened Topology
  import opened Wrappers

  /** The neighbours in row `u`. */
  function Neighbours(t: Csr, u: nat): seq<nat>
    requires Rows(t.rowPtr, t.n, t.Nnz()) && u < t.n
  {
    t.col[t.rowPtr[u]..t.rowPtr[u + 1]]
  }

  /** A neighbour is a node, and has this one as neighbour. */
  predicate Mutual(t: Csr, u: nat, v: nat)
    requires Rows(t.rowPtr, t.n, t.Nnz()) && u < t.n
  {
    v in Neighbours(t, u) ==> v < t.n && u in Neighbours(t, v)
  }

  /** Rows name nodes, and neighbours name each other. */
  ghost predicate Adjacent(t: Csr) {
    && Rows(t.rowPtr, t.n, t.Nnz())
    && (forall u: nat, v: nat :: u < t.n ==> Mutual(t, u, v))
  }

  lemma InNeighbours(t: Csr, edges: seq<Edge>, halves: seq<Half>, u: nat, v: nat)
    requires Compiles(t, edges, halves) && u < t.n
    ensures v in Neighbours(t, u) <==> exists h: Half :: h.nbr == v && IsHalf(t.n, edges, u, h)
  {
    hide Row, IsHalf, Bounded, PosOf;
    var row := Neighbours(t, u);
    if v in row {
      var i :| 0 <= i < |row| && row[i] == v;
      RowMember(t.rowPtr[u], t.rowPtr[u + 1], t.n, edges, halves, u, t.rowPtr[u] + i);
    }
    if h: Half :| h.nbr == v && IsHalf(t.n, edges, u, h) {
      HalfInRow(t, edges, halves, u, h);
      assert row[PosOf(t.edgePos, h) - t.rowPtr[u]] == v;
    }
  }

  function Opposite(u: nat, h: Half): Half {
    if h.nbr == u then h else Half(u, h.k, !h.forward)
  }

  lemma NeighboursBack(t: Csr, edges: seq<Edge>, halves: seq<Half>, u: nat, v: nat)
    requires Compiles(t, edges, halves) && u < t.n
    ensures Mutual(t, u, v)
  {
    if v in Neighbours(t, u) {
      InNeighbours(t, edges, halves, u, v);
      var h: Half :| h.nbr == v && IsHalf(t.n, edges, u, h);
      InNeighbours(t, edges, halves, v, u);
      assert IsHalf(t.n, edges, v, Opposite(u, h));
    }
  }

  /** Compiled rows are symmetric. */
  lemma CompiledAdjacent(t: Csr, edges: seq<Edge>, halves: seq<Half>)
    requires Compiles(t, edges, halves)
    ensures Adjacent(t)
  {
    hide Row, PosOf, Bounded, Mutual;
    forall u: nat, v: nat | u < t.n
      ensures Mutual(t, u, v)
    {
      NeighboursBack(t, edges, halves, u, v);
    }
  }

  /** A node is uncoloured or has a colour. */
  type Shades = seq<Option<nat>>

  function ShadeOf(of: Shades, v: nat): Option<nat> {
    if v < |of| then of[v] else None
  }

  /** No two coloured neighbours share a colour. */
  predicate Proper(t: Csr, of: Shades)
    requires Adjacent(t) && |of| == t.n
  {
    forall u: nat, v: nat :: u < t.n && v in Neighbours(t, u) && v != u && of[u].Some? ==> of[u] != ShadeOf(of, v)
  }

  /** Some neighbour has this colour. */
  predicate Met(t: Csr, of: Shades, u: nat, c: nat)
    requires Adjacent(t) && u < t.n
  {
    exists v :: v in Neighbours(t, u) && ShadeOf(of, v) == Some(c)
  }

  /** Colours stay within the row length, and every smaller one is met among the
      neighbours. */
  predicate Tight(t: Csr, of: Shades)
    requires Adjacent(t) && |of| == t.n
  {
    && (forall u :: 0 <= u < t.n && of[u].Some? ==> of[u].value <= |Neighbours(t, u)|)
    && (forall u: nat, c: nat :: u < t.n && of[u].Some? && c < of[u].value ==> Met(t, of, u, c))
  }

  predicate Clear(used: seq<bool>) {
    forall c :: 0 <= c < |used| ==> !used[c]
  }

  /** Distinct colours `0..c`, all met in a row, need a row that long. */
  lemma {:induction false} Pigeonhole(touched: seq<nat>, c: nat)
    requires forall x: nat :: x < c ==> x in touched
    ensures c <= |touched|
  {
    if c > 0 {
      var top: nat := c - 1;
      assert top in touched;
      var i :| 0 <= i < |touched| && touched[i] == top;
      var rest := touched[..i] + touched[i + 1..];
      forall x: nat | x < c - 1
        ensures x in rest
      {
        assert x in touched;
        var j :| 0 <= j < |touched| && touched[j] == x;
        assert if j < i then rest[j] == x else rest[j - 1] == x;
      }
      Pigeonhole(rest, c - 1);
    }
  }

  /** All nodes, in order. */
  function Ids(n: nat): (ids: seq<nat>)
    ensures |ids| == n && forall i :: 0 <= i < n ==> ids[i] == i
  {
    if n == 0 then [] else Ids(n - 1) + [n - 1]
  }

  lemma {:induction false} IdsOnce(n: nat, x: nat)
    ensures multiset(Ids(n))[x] == if x < n then 1 else 0
  {
    hide Ids;
    if n > 0 {
      IdsOnce(n - 1, x);
      IdsNext(n - 1);
      AppendOnce(Ids(n - 1), n - 1, x);
    }
  }

  lemma AppendOnce(s: seq<nat>, y: nat, x: nat)
    ensures multiset(s + [y])[x] == multiset(s)[x] + if y == x then 1 else 0
  {
  }

  /** Longest rows first. The source's sort leaves equal degrees in any order,
      so only this much is promised. */
  method DegreeOrder(t: Csr) returns (order: seq<nat>)
    requires Rows(t.rowPtr, t.n, t.Nnz())
    ensures multiset(order) == multiset(Ids(t.n)) && |order| == t.n
    ensures forall i, j :: 0 <= i <= j < t.n ==>
              && order[i] < t.n && order[j] < t.n
              && |Neighbours(t, order[i])| >= |Neighbours(t, order[j])|
  {
    hide Ids, Neighbours;
    var key := (u: nat) => if u < t.n then -((t.rowPtr[u + 1] - t.rowPtr[u]) as real) else 0.0;
    SortBySorts(Ids(t.n), key);
    order := SortBy(Ids(t.n), key);
    forall i, j | 0 <= i <= j < t.n
      ensures order[i] < t.n && order[j] < t.n && |Neighbours(t, order[i])| >= |Neighbours(t, order[j])|
    {
      NodeInOrder(order, t.n, i);
      NodeInOrder(order, t.n, j);
      RowOf(t, order[i]);
      RowOf(t, order[j]);
      assert key(order[i]) <= key(order[j]);
    }
  }

  lemma RowOf(t: Csr, u: nat)
    requires Rows(t.rowPtr, t.n, t.Nnz()) && u < t.n
    ensures |Neighbours(t, u)| == t.rowPtr[u + 1] - t.rowPtr[u]
  {
  }

  lemma NodeInOrder(order: seq<nat>, n: nat, i: nat)
    requires multiset(order) == multiset(Ids(n)) && i < |order|
    ensures order[i] < n && order[i] !in order[..i]
  {
    IdsOnce(n, order[i]);
    assert order[i] in multiset(order);
    if order[i] in order[..i] {
      var j :| 0 <= j < i && order[..i][j] == order[i];
      Twice(order, j, i);
      assert false;
    }
  }

  /** Exactly the colours in row `u` are marked. */
  predicate Marked(t: Csr, of: Shades, used: seq<bool>, u: nat)
    requires Adjacent(t) && |of| == t.n && u < t.n
  {
    forall c :: 0 <= c < |used| ==> (used[c] <==> exists v :: v in Neighbours(t, u) && ShadeOf(of, v) == Some(c))
  }

  method Mark(t: Csr, of: Shades, used: seq<bool>, u: nat) returns (marked: seq<bool>, touched: seq<nat>)
    requires Adjacent(t) && |of| == t.n && u < t.n && Clear(used)
    requires forall v :: 0 <= v < t.n && of[v].Some? ==> of[v].value < |used|
    ensures |marked| == |used| && Marked(t, of, marked, u)
    ensures |touched| <= |Neighbours(t, u)|
    ensures forall c: nat :: c in touched <==> c < |used| && marked[c]
  {
    marked, touched := used, [];
    var row := Neighbours(t, u);
    for i := 0 to |row|
      invariant |marked| == |used| && |touched| <= i
      invariant forall c :: 0 <= c < |used| ==> (marked[c] <==> exists v :: v in row[..i] && ShadeOf(of, v) == Some(c))
      invariant forall c: nat :: c in touched <==> c < |used| && marked[c]
    {
      assert row[..i + 1] == row[..i] + [row[i]];
      assert row[i] in row;
      match ShadeOf(of, row[i])
      case None =>
      case Some(c) =>
        marked := marked[c := true];
        touched := touched + [c];
    }
    assert row[..|row|] == row;
  }

  method Unmark(used: seq<bool>, touched: seq<nat>) returns (clear: seq<bool>)
    requires forall c: nat :: c in touched <==> c < |used| && used[c]
    ensures |clear| == |used| && Clear(clear)
  {
    clear := used;
    for i := 0 to |touched|
      invariant |clear| == |used|
      invariant forall c: nat :: c < |used| && clear[c] ==> c in touched[i..]
    {
      assert touched[i..] == [touched[i]] + touched[i + 1..];
      assert touched[i] in touched;
      clear := clear[touched[i] := false];
    }
  }

  lemma ColourKeepsProper(t: Csr, of: Shades, used: seq<bool>, u: nat, c: nat)
    requires Adjacent(t) && |of| == t.n && u < t.n && Proper(t, of) && of[u].None?
    requires Marked(t, of, used, u) && c < |used| && !used[c]
    ensures Proper(t, of[u := Some(c)])
  {
    var now := of[u := Some(c)];
    forall x: nat, v: nat | x < t.n && v in Neighbours(t, x) && v != x && now[x].Some?
      ensures now[x] != ShadeOf(now, v)
    {
      assert Mutual(t, x, v);
      assert ShadeOf(of, x) == of[x];
      assert forall w :: w in Neighbours(t, u) ==> ShadeOf(of, w) != Some(c);
    }
  }

  lemma ColourKeepsTight(t: Csr, of: Shades, used: seq<bool>, touched: seq<nat>, u: nat, c: nat)
    requires Adjacent(t) && |of| == t.n && u < t.n && Tight(t, of) && of[u].None?
    requires Marked(t, of, used, u) && c <= |used| && |touched| <= |Neighbours(t, u)|
    requires forall x: nat :: x in touched <==> x < |used| && used[x]
    requires forall x :: 0 <= x < c ==> used[x]
    ensures Tight(t, of[u := Some(c)])
  {
    hide Mutual, Neighbours;
    var now := of[u := Some(c)];
    Pigeonhole(touched, c);
    forall x: nat, d: nat | x < t.n && now[x].Some? && d < now[x].value
      ensures Met(t, now, x, d)
    {
      if x != u {
        assert Met(t, of, x, d);
      } else {
        assert used[d];
      }
      var v: nat :| v in Neighbours(t, x) && ShadeOf(of, v) == Some(d);
      assert ShadeOf(now, v) == Some(d);
    }
  }

  /** Exactly the nodes of `done` are coloured, with that many colours at most. */
  predicate Shaded(of: Shades, done: seq<nat>) {
    forall u: nat :: u < |of| ==>
      && (of[u].Some? <==> u in done)
      && (of[u].Some? ==> of[u].value < |done|)
  }

  lemma ShadedOne(of: Shades, order: seq<nat>, i: nat)
    requires i < |order| && Shaded(of, order[..i]) && order[i] < |of| && order[i] !in order[..i]
    ensures of[order[i]].None?
    ensures forall v: nat :: v < |of| && of[v].Some? ==> of[v].value < i
  {
  }

  lemma ShadedStep(of: Shades, order: seq<nat>, i: nat, c: nat)
    requires i < |order| && Shaded(of, order[..i]) && order[i] < |of| && c <= i
    ensures Shaded(of[order[i] := Some(c)], order[..i + 1])
  {
    assert order[..i + 1] == order[..i] + [order[i]];
  }

  /** Between nodes: scratch is clear, and the colouring of the nodes done is
      proper and tight. */
  predicate Between(t: Csr, of: Shades, used: seq<bool>, done: seq<nat>)
    requires Adjacent(t)
  {
    && |of| == t.n && |used| == t.n && Clear(used)
    && Proper(t, of) && Tight(t, of) && Shaded(of, done)
  }

  lemma MarkedBelow(t: Csr, of: Shades, marked: seq<bool>, u: nat, done: seq<nat>, c: nat)
    requires Adjacent(t) && |of| == t.n && u < t.n && Marked(t, of, marked, u)
    requires Shaded(of, done)
    requires c <= |marked| && forall x :: 0 <= x < c ==> marked[x]
    ensures c <= |done|
  {
    if c > 0 {
      assert marked[c - 1];
    }
  }

  method ColorNode(t: Csr, of: Shades, used: seq<bool>, ghost order: seq<nat>, ghost i: nat, node: nat)
    returns (of': Shades, used': seq<bool>)
    requires Adjacent(t) && i < |order| == t.n && Between(t, of, used, order[..i])
    requires node == order[i] < t.n && node !in order[..i]
    ensures Between(t, of', used', order[..i + 1])
  {
    ShadedOne(of, order, i);
    hide Proper, Tight, Adjacent, Marked, Clear, Neighbours, Shaded;
    var marked, touched := Mark(t, of, used, node);
    var c := 0;
    while c < t.n && marked[c]
      invariant c <= t.n && forall x :: 0 <= x < c ==> marked[x]
    {
      c := c + 1;
    }
    MarkedBelow(t, of, marked, node, order[..i], c);
    ColourKeepsProper(t, of, marked, node, c);
    ColourKeepsTight(t, of, marked, touched, node, c);
    ShadedStep(of, order, i, c);
    of' := of[node := Some(c)];
    used' := Unmark(marked, touched);
  }

  lemma BetweenStart(t: Csr, of: Shades, used: seq<bool>)
    requires Adjacent(t) && |of| == t.n && |used| == t.n
    requires forall u :: 0 <= u < t.n ==> of[u].None? && !used[u]
    ensures Between(t, of, used, [])
  {
  }

  lemma BetweenEnd(t: Csr, of: Shades, used: seq<bool>, order: seq<nat>)
    requires Adjacent(t) && Between(t, of, used, order) && multiset(order) == multiset(Ids(t.n))
    ensures |of| == t.n && (forall u :: 0 <= u < t.n ==> of[u].Some?) && Proper(t, of) && Tight(t, of)
  {
    forall u: nat | u < t.n
      ensures of[u].Some?
    {
      IdsOnce(t.n, u);
      assert u in multiset(order);
    }
  }

  /** Every node coloured greedily, in degree order. */
  method GreedyColor(t: Csr) returns (of: Shades)
    requires Adjacent(t)
    ensures |of| == t.n && forall u :: 0 <= u < t.n ==> of[u].Some?
    ensures Proper(t, of) && Tight(t, of)
  {
    var order := DegreeOrder(t);
    of := seq(t.n, _ => None);
    var used := seq(t.n, _ => false);
    BetweenStart(t, of, used);
    hide Between, Adjacent, Neighbours;
    for i := 0 to t.n
      invariant Between(t, of, used, order[..i])
    {
      NodeInOrder(order, t.n, i);
      of, used := ColorNode(t, of, used, order, i, order[i]);
    }
    assert order[..t.n] == order;
    BetweenEnd(t, of, used, order);
  }

  // Layout by colour.

  function Colours(of: Shades): (c: seq<nat>)
    requires forall u :: 0 <= u < |of| ==> of[u].Some?
    ensures |c| == |of|
  {
    seq(|of|, u requires 0 <= u < |of| => of[u].value)
  }

  /** The nodes of colour `c`, in order. */
  function Class(colours: seq<nat>, c: nat): seq<nat> {
    if colours == [] then []
    else Class(colours[..|colours| - 1], c) + if colours[|colours| - 1] == c then [|colours| - 1] else []
  }

  lemma {:induction false} ClassMember(colours: seq<nat>, c: nat, u: nat)
    ensures u in Class(colours, c) <==> u < |colours| && colours[u] == c
  {
    if colours != [] {
      ClassMember(colours[..|colours| - 1], c, u);
    }
  }

  function NumColours(colours: seq<nat>): nat {
    if colours == [] then 0 else Largest(colours) + 1
  }

  function Concat(groups: seq<seq<nat>>): seq<nat> {
    if groups == [] then [] else Concat(groups[..|groups| - 1]) + groups[|groups| - 1]
  }

  lemma {:induction false} ConcatPush(groups: seq<seq<nat>>, c: nat, x: nat)
    requires c < |groups|
    ensures multiset(Concat(groups[c := groups[c] + [x]])) == multiset(Concat(groups)) + multiset{x}
  {
    var last := |groups| - 1;
    var pushed := groups[c := groups[c] + [x]];
    if c == last {
      assert pushed[..last] == groups[..last];
    } else {
      ConcatPush(groups[..last], c, x);
      assert pushed[..last] == groups[..last][c := groups[..last][c] + [x]];
    }
  }

  lemma {:induction false} ConcatEmpty(groups: seq<seq<nat>>)
    requires forall c :: 0 <= c < |groups| ==> groups[c] == []
    ensures Concat(groups) == []
  {
    if groups != [] {
      ConcatEmpty(groups[..|groups| - 1]);
    }
  }

  function Total(s: seq<nat>): nat {
    if s == [] then 0 else Total(s[..|s| - 1]) + s[|s| - 1]
  }

  datatype Blocks = Blocks(starts: seq<nat>, counts: seq<nat>, nodes: seq<nat>, numColors: nat)

  /** Block `c` starts where the earlier ones end, and lists `group`. */
  predicate BlockAt(starts: seq<nat>, counts: seq<nat>, nodes: seq<nat>, group: seq<nat>, c: nat)
    requires c < |starts| == |counts|
  {
    && starts[c] == Total(counts[..c]) && counts[c] == |group|
    && starts[c] + counts[c] <= |nodes| && nodes[starts[c]..starts[c] + counts[c]] == group
  }

  /** Block `c` is the nodes of colour `c`, in order, and every node is listed
      exactly once. */
  predicate LaidOut(b: Blocks, colours: seq<nat>) {
    && b.numColors == NumColours(colours) == |b.starts| == |b.counts|
    && multiset(b.nodes) == multiset(Ids(|colours|)) && |b.nodes| == |colours|
    && forall c :: 0 <= c < b.numColors ==> BlockAt(b.starts, b.counts, b.nodes, Class(colours, c), c)
  }

  /** Nodes below `i` are grouped by colour. */
  ghost predicate Grouped(groups: seq<seq<nat>>, colours: seq<nat>, num: nat, i: nat)
    requires i <= |colours|
  {
    && |groups| == num && (forall c :: 0 <= c < num ==> groups[c] == Class(colours[..i], c))
    && multiset(Concat(groups)) == multiset(Ids(i))
  }

  lemma GroupNone(groups: seq<seq<nat>>, colours: seq<nat>, num: nat)
    requires |groups| == num && forall c :: 0 <= c < num ==> groups[c] == []
    ensures Grouped(groups, colours, num, 0)
  {
    ConcatEmpty(groups);
    assert colours[..0] == [];
  }

  lemma ClassStep(colours: seq<nat>, i: nat, c: nat)
    requires i < |colours|
    ensures Class(colours[..i + 1], c) == Class(colours[..i], c) + if colours[i] == c then [i] else []
  {
    assert colours[..i + 1][..i] == colours[..i];
  }

  lemma GroupStep(groups: seq<seq<nat>>, colours: seq<nat>, num: nat, i: nat)
    requires i < |colours| && Grouped(groups, colours, num, i) && colours[i] < num
    ensures Grouped(groups[colours[i] := groups[colours[i]] + [i]], colours, num, i + 1)
  {
    hide Class, Concat, Ids;
    ConcatPush(groups, colours[i], i);
    var now := groups[colours[i] := groups[colours[i]] + [i]];
    forall c: nat | c < num
      ensures now[c] == Class(colours[..i + 1], c)
    {
      ClassStep(colours, i, c);
      assert groups[c] == Class(colours[..i], c);
    }
    IdsNext(i);
  }

  lemma IdsNext(n: nat)
    ensures Ids(n + 1) == Ids(n) + [n]
  {
  }

  method Group(colours: seq<nat>, num: nat) returns (groups: seq<seq<nat>>)
    requires forall u :: 0 <= u < |colours| ==> colours[u] < num
    ensures |groups| == num && forall c :: 0 <= c < num ==> groups[c] == Class(colours, c)
    ensures multiset(Concat(groups)) == multiset(Ids(|colours|))
  {
    hide Grouped, Class, Concat, Ids;
    groups := seq(num, _ => []);
    GroupNone(groups, colours, num);
    for i := 0 to |colours|
      invariant |groups| == num && Grouped(groups, colours, num, i)
    {
      GroupStep(groups, colours, num, i);
      groups := groups[colours[i] := groups[colours[i]] + [i]];
    }
    GroupedAll(groups, colours, num);
  }

  lemma GroupedAll(groups: seq<seq<nat>>, colours: seq<nat>, num: nat)
    requires Grouped(groups, colours, num, |colours|)
    ensures |groups| == num && forall c :: 0 <= c < num ==> groups[c] == Class(colours, c)
    ensures multiset(Concat(groups)) == multiset(Ids(|colours|))
  {
    assert colours[..|colours|] == colours;
    hide Class, Concat, Ids;
  }

  /** The blocks laid so far: block `c` is where it says. */
  predicate Blocked(starts: seq<nat>, counts: seq<nat>, nodes: seq<nat>, groups: seq<seq<nat>>, g: nat)
    requires g <= |groups|
  {
    && |starts| == |counts| == g && nodes == Concat(groups[..g]) && |nodes| == Total(counts)
    && forall c :: 0 <= c < g ==> BlockAt(starts, counts, nodes, groups[c], c)
  }

  lemma BlockedNone(groups: seq<seq<nat>>)
    ensures Blocked([], [], [], groups, 0)
  {
    assert groups[..0] == [];
  }

  lemma BlockKept(starts: seq<nat>, counts: seq<nat>, nodes: seq<nat>, group: seq<nat>, c: nat, x: nat, y: nat, more: seq<nat>)
    requires c < |starts| == |counts| && BlockAt(starts, counts, nodes, group, c)
    ensures BlockAt(starts + [x], counts + [y], nodes + more, group, c)
  {
    assert (counts + [y])[..c] == counts[..c];
    assert (nodes + more)[starts[c]..starts[c] + counts[c]] == nodes[starts[c]..starts[c] + counts[c]];
  }

  lemma BlockNew(starts: seq<nat>, counts: seq<nat>, nodes: seq<nat>, group: seq<nat>)
    requires |starts| == |counts| && |nodes| == Total(counts)
    ensures BlockAt(starts + [|nodes|], counts + [|group|], nodes + group, group, |starts|)
    ensures Total(counts + [|group|]) == |nodes + group|
  {
    assert (counts + [|group|])[..|counts|] == counts;
    assert (nodes + group)[|nodes|..|nodes| + |group|] == group;
  }

  lemma BlockedStep(starts: seq<nat>, counts: seq<nat>, nodes: seq<nat>, groups: seq<seq<nat>>, g: nat)
    requires g < |groups| && Blocked(starts, counts, nodes, groups, g)
    ensures Blocked(starts + [|nodes|], counts + [|groups[g]|], nodes + groups[g], groups, g + 1)
  {
    assert groups[..g + 1][..g] == groups[..g];
    BlockNew(starts, counts, nodes, groups[g]);
    hide BlockAt, Total;
    forall c | 0 <= c < g
      ensures BlockAt(starts + [|nodes|], counts + [|groups[g]|], nodes + groups[g], groups[c], c)
    {
      BlockKept(starts, counts, nodes, groups[c], c, |nodes|, |groups[g]|, groups[g]);
    }
  }

  lemma BlockedAll(b: Blocks, groups: seq<seq<nat>>, colours: seq<nat>)
    requires |groups| == b.numColors == NumColours(colours)
    requires Blocked(b.starts, b.counts, b.nodes, groups, |groups|)
    requires forall c :: 0 <= c < |groups| ==> groups[c] == Class(colours, c)
    requires multiset(Concat(groups)) == multiset(Ids(|colours|))
    ensures LaidOut(b, colours)
  {
    assert groups[..|groups|] == groups;
    assert |multiset(b.nodes)| == |multiset(Ids(|colours|))|;
    hide Class, Concat, Ids, Largest, BlockAt, Total;
  }

  method ColorBlocks(colours: seq<nat>) returns (b: Blocks)
    ensures LaidOut(b, colours)
  {
    var num := NumColours(colours);
    LargestBounds(colours, Largest(colours));
    var groups := Group(colours, num);
    var starts: seq<nat>, counts: seq<nat>, nodes: seq<nat> := [], [], [];
    var cur := 0;
    BlockedNone(groups);
    hide Class, Largest, Ids, Blocked, Concat, LaidOut;
    for g := 0 to num
      invariant Blocked(starts, counts, nodes, groups, g)
      invariant cur == |nodes|
    {
      BlockedStep(starts, counts, nodes, groups, g);
      starts := starts + [cur];
      counts := counts + [|groups[g]|];
      nodes := nodes + groups[g];
      cur := cur + |groups[g]|;
    }
    b := Blocks(starts, counts, nodes, num);
    BlockedAll(b, groups, colours);
  }

  // What a colouring of a compiled graph means.

  /** The endpoints of every edge in range that is no self-loop differ. */
  lemma EdgesSplit(t: Csr, edges: seq<Edge>, halves: seq<Half>, of: Shades, k: nat)
    requires Compiles(t, edges, halves) && Adjacent(t) && |of| == t.n && Proper(t, of)
    requires forall u :: 0 <= u < t.n ==> of[u].Some?
    requires k < |edges| && InRange(t.n, edges[k]) && edges[k].0 != edges[k].1
    ensures of[edges[k].0] != of[edges[k].1]
  {
    var (u, v) := edges[k];
    InNeighbours(t, edges, halves, u, v);
    var h := Half(v, k, true);
    assert h.nbr == v && IsHalf(t.n, edges, u, h);
    assert v in Neighbours(t, u) && ShadeOf(of, v) == of[v];
  }

  lemma ColourWithin(t: Csr, edges: seq<Edge>, halves: seq<Half>, of: Shades, u: nat)
    requires Compiles(t, edges, halves) && Adjacent(t) && |of| == t.n && Tight(t, of)
    requires u < t.n && of[u].Some?
    ensures of[u].value <= Largest(Degrees(t.n, edges))
  {
    RowLength(t, edges, halves, u);
    LargestBounds(Degrees(t.n, edges), Largest(Degrees(t.n, edges)));
    hide Row, Degree;
    assert of[u].value <= |Neighbours(t, u)| == Lengths(t)[u] == Degrees(t.n, edges)[u];
  }

  /** At most the largest degree plus one colours, and no class is empty. */
  lemma FewColours(t: Csr, edges: seq<Edge>, halves: seq<Half>, of: Shades)
    requires Compiles(t, edges, halves) && Adjacent(t) && |of| == t.n && Tight(t, of)
    requires forall u :: 0 <= u < t.n ==> of[u].Some?
    ensures NumColours(Colours(of)) <= Largest(Degrees(t.n, edges)) + 1
    ensures forall c: nat :: c < NumColours(Colours(of)) ==> Class(Colours(of), c) != []
  {
    var colours := Colours(of);
    var degrees := Degrees(t.n, edges);
    forall u: nat | u < t.n
      ensures colours[u] <= Largest(degrees)
    {
      ColourWithin(t, edges, halves, of, u);
    }
    hide Compiles, Degree, Degrees;
    LargestBounds(colours, Largest(degrees));
    forall c: nat | c < NumColours(colours)
      ensures Class(colours, c) != []
    {
      var top := LargestIs(colours);
      if c < colours[top] {
        assert Met(t, of, top, c);
        var v: nat :| v in Neighbours(t, top) && ShadeOf(of, v) == Some(c);
        ClassMember(colours, c, v);
      } else {
        ClassMember(colours, c, top);
      }
    }
  }

  lemma {:induction false} LargestIs(s: seq<nat>) returns (i: nat)
    requires s != []
    ensures i < |s| && s[i] == Largest(s)
  {
    var last := |s| - 1;
    if last == 0 || s[last] > Largest(s[..last]) {
      i := last;
    } else {
      i := LargestIs(s[..last]);
    }
  }
}
