/**
 * How a batch is identified, sized and cut into chunks (src/streaming.rs,
 * src/sampler.rs).
 */
module Chunks {
  import opened Wrappers

  const MAX_READS: nat := 256

  datatype Job = Job(
    id: nat, watermark: Option<nat>, nodes: nat, edges: seq<(nat, nat)>,
    numReads: nat, numSweeps: nat, sweepsPerBeta: nat, betaRange: Option<(real, real)>)

  function Clamped(numReads: nat): (n: nat)
    ensures 1 <= n <= MAX_READS
    ensures (1 <= numReads <= MAX_READS ==> n == numReads) && (numReads > MAX_READS ==> n == MAX_READS)
  {
    if numReads < 1 then 1 else Min(numReads, MAX_READS)
  }

  datatype BatchKey = BatchKey(
    watermark: Option<nat>, nodes: nat, edges: seq<(nat, nat)>,
    numReads: nat, numSweeps: nat, sweepsPerBeta: nat, betaRange: Option<(real, real)>) {
    /** The comparison of the source, field by field. */
    predicate Matches(job: Job) {
      && watermark == job.watermark && nodes == job.nodes && numReads == Clamped(job.numReads)
      && numSweeps == job.numSweeps && sweepsPerBeta == Max(job.sweepsPerBeta, 1)
      && betaRange == job.betaRange && edges == job.edges
    }
  }

  function KeyOf(job: Job): BatchKey {
    BatchKey(job.watermark, job.nodes, job.edges, Clamped(job.numReads), job.numSweeps, Max(job.sweepsPerBeta, 1),
             job.betaRange)
  }

  /** Matching is having the same key, so it is an equivalence on jobs, and
      jobs of one batch share one watermark. */
  lemma MatchesIsSameKey(a: Job, b: Job)
    ensures KeyOf(a).Matches(b) <==> KeyOf(a) == KeyOf(b)
    ensures KeyOf(a).Matches(b) ==> a.watermark == b.watermark
  {
  }

  /** Whether a watermark was abandoned: `level` counts the watermarks that
      are. Only ever raised. */
  predicate IsCancelled(level: nat, watermark: Option<nat>) {
    watermark.Some? && watermark.value < level
  }

  /** One level more abandons one watermark more, and none is abandoned at first. */
  lemma CancelledCounts(level: nat, watermark: Option<nat>)
    ensures !IsCancelled(0, watermark)
    ensures IsCancelled(level + 1, watermark) <==> IsCancelled(level, watermark) || watermark == Some(level)
  {
  }

  /** The governor's scale applied to a problem count. */
  function ScaleBudget(nominal: nat, scale: real): (size: nat)
    ensures 1 <= size <= Max(nominal, 1)
    ensures (scale >= 1.0 ==> size == Max(nominal, 1)) && (scale <= 0.0 ==> size == 1)
  {
    if scale >= 1.0 then Max(nominal, 1)
    else if scale <= 0.0 then 1
    else
      Shared(nominal as real, scale);
      Max(Nearest(nominal as real * scale), 1)
  }

  /** It is the nearest whole number of problems, halves upwards, but never none. */
  lemma BudgetIsNearest(nominal: nat, scale: real, exact: real)
    requires 0.0 < scale < 1.0 && exact == nominal as real * scale
    ensures var size := ScaleBudget(nominal, scale);
            if exact < 0.5 then size == 1 else size as real - 0.5 <= exact < size as real + 0.5
  {
    Shared(nominal as real, scale);
  }

  lemma Shared(whole: real, share: real)
    requires 0.0 <= whole && 0.0 <= share < 1.0
    ensures 0.0 <= whole * share <= whole
  {
  }

  /** The nearest whole number, halves upwards. */
  function Nearest(x: real): (n: nat)
    requires 0.0 <= x
    ensures n as real - 0.5 <= x < n as real + 0.5
  {
    (x + 0.5).Floor
  }

  type Chunk = (nat, nat)

  function Reach(plan: seq<Chunk>): nat {
    if plan == [] then 0 else plan[|plan| - 1].0 + plan[|plan| - 1].1
  }

  /** Consecutive chunks from zero on, none empty, none longer than `limit`. */
  predicate Consecutive(plan: seq<Chunk>, limit: nat) {
    forall k :: 0 <= k < |plan| ==> 0 < plan[k].1 <= limit && plan[k].0 == Reach(plan[..k])
  }

  /** The chunks of a schedule: all of it, in order, without gap or overlap. */
  predicate Covers(plan: seq<Chunk>, numBetas: nat, limit: nat) {
    Consecutive(plan, limit) && Reach(plan) == numBetas
  }

  lemma AppendChunk(plan: seq<Chunk>, limit: nat, c: Chunk)
    requires Consecutive(plan, limit) && 0 < c.1 <= limit && c.0 == Reach(plan)
    ensures Consecutive(plan + [c], limit) && Reach(plan + [c]) == c.0 + c.1
  {
    var longer := plan + [c];
    forall k | 0 <= k < |longer|
      ensures 0 < longer[k].1 <= limit && longer[k].0 == Reach(longer[..k])
    {
      assert longer[..k] == plan[..k];
      if k == |plan| {
        assert plan[..k] == plan;
      }
    }
  }

  lemma NoChunks(limit: nat)
    ensures Consecutive([], limit) && Reach([]) == 0
  {
  }

  /** Only the last chunk may be shorter than the limit. */
  predicate Filled(plan: seq<Chunk>, limit: nat) {
    forall k :: 0 <= k < |plan| - 1 ==> plan[k].1 == limit
  }

  /** Cuts a schedule, an empty one counting as one beta, into chunks as long as
      the limit allows. */
  method ChunkPlan(betas: nat, limit: nat) returns (plan: seq<Chunk>)
    requires limit > 0
    ensures plan != [] && Covers(plan, if betas == 0 then 1 else betas, limit)
    ensures Filled(plan, limit)
  {
    var numBetas := Max(betas, 1);
    plan := [];
    var start := 0;
    hide Consecutive, Reach;
    NoChunks(limit);
    while start < numBetas
      invariant Consecutive(plan, limit) && Reach(plan) == start <= numBetas
      invariant start > 0 ==> plan != []
      invariant start < numBetas ==> forall k :: 0 <= k < |plan| ==> plan[k].1 == limit
      invariant Filled(plan, limit)
    {
      var count := Min(limit, numBetas - start);
      AppendChunk(plan, limit, (start, count));
      plan := plan + [(start, count)];
      start := start + count;
    }
  }

  /** Every position of the schedule is in exactly one chunk. */
  lemma {:induction false} EachBetaOnce(plan: seq<Chunk>, numBetas: nat, limit: nat, beta: nat)
    requires Covers(plan, numBetas, limit) && beta < numBetas
    ensures exists k :: 0 <= k < |plan| && InChunk(plan[k], beta)
    ensures forall k, l :: 0 <= k < |plan| && 0 <= l < |plan| && InChunk(plan[k], beta) && InChunk(plan[l], beta) ==> k == l
  {
    forall k, l | 0 <= k < l < |plan|
      ensures plan[k].0 + plan[k].1 <= plan[l].0
    {
      Later(plan, limit, k, l);
    }
    var at := Holding(plan, limit, beta, |plan|);
    assert InChunk(plan[at], beta);
  }

  predicate InChunk(c: Chunk, beta: nat) {
    c.0 <= beta < c.0 + c.1
  }

  lemma {:induction false} Later(plan: seq<Chunk>, limit: nat, k: nat, l: nat)
    requires Consecutive(plan, limit) && k < l < |plan|
    ensures plan[k].0 + plan[k].1 <= plan[l].0
    decreases l
  {
    assert plan[l].0 == Reach(plan[..l]) == plan[l - 1].0 + plan[l - 1].1;
    if k < l - 1 {
      Later(plan, limit, k, l - 1);
    }
  }

  lemma {:induction false} Holding(plan: seq<Chunk>, limit: nat, beta: nat, m: nat) returns (k: nat)
    requires Consecutive(plan, limit) && m <= |plan| && m > 0 && beta < plan[m - 1].0 + plan[m - 1].1
    ensures k < m && InChunk(plan[k], beta)
    decreases m
  {
    assert plan[m - 1].0 == Reach(plan[..m - 1]);
    if plan[m - 1].0 <= beta {
      k := m - 1;
    } else {
      k := Holding(plan, limit, beta, m - 1);
    }
  }
}
