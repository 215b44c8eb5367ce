/**
 * Segment schedules on the slot pool: what each leg of a prepared job computes
 * (src/cascade.rs with src/slots.rs).
 */
module Legs {
  import opened Wrappers
  import opened Slots
  import opened SlotRuns
  import opened Schedules
  import Seeds

  /** The slot job of a prepared schedule. */
  ghost predicate Prepared(ladder: Ladder, key: ScheduleKey, job: SlotJob) {
    && LadderOk(ladder) && StagesOk(key.stages) && key.sweeps > 0
    && Segments(job.schedule.betas, job.checkpoints, job.freshFrom) == SegmentsOf(ladder, key)
  }

  lemma PreparedValid(ladder: Ladder, key: ScheduleKey, job: SlotJob)
    requires Prepared(ladder, key, job)
    ensures job.Valid() && |job.checkpoints| == |Budgets(key)|
  {
    SegmentsValid(ladder, key);
    SegmentsSplit(ladder, key);
  }

  /** The job that runs leg `leg` of `job` alone: a standard anneal of the leg's
      own budget, from the seed that leg draws. */
  ghost predicate LoneLeg<S>(d: Device<S>, ladder: Ladder, key: ScheduleKey, job: SlotJob, leg: nat, lone: SlotJob)
    requires LadderOk(ladder) && leg < |Budgets(key)|
  {
    && lone.coefficients == job.coefficients
    && lone.schedule.betas == Standard(ladder, key, Budgets(key)[leg])
    && lone.checkpoints == [Budgets(key)[leg]]
    && d.seedOf(lone.seed, 0) == d.seedOf(job.seed, leg)
  }

  /** Under the source's own seeds, the lone job's seed is the leg's seed. */
  lemma LoneSeed(seed: bv64, leg: nat)
    ensures StepSeed(Seeds.LegSeed(seed, leg), 0) == StepSeed(seed, leg)
  {
    hide Seeds.SlotSeed, Seeds.SplitMix;
  }

  lemma FreshLegState<S>(d: Device<S>, ladder: Ladder, key: ScheduleKey, job: SlotJob, leg: nat, lone: SlotJob)
    requires Prepared(ladder, key, job) && job.Valid() && lone.Valid()
    requires job.freshFrom <= leg < |job.checkpoints| == |Budgets(key)|
    requires LoneLeg(d, ladder, key, job, leg, lone)
    ensures job.checkpoints[leg] <= job.Len() && lone.checkpoints[0] <= lone.Len()
    ensures StateAt(d, job, leg, job.checkpoints[leg]) == StateAt(d, lone, 0, lone.checkpoints[0])
  {
    hide LadderOk, Standard, Budgets, StagesOk, Anneal;
    assert job.checkpoints[leg] <= job.checkpoints[|job.checkpoints| - 1];
    FreshLegIsStandard(ladder, key, leg);
    hide StrictlyIncreasing, SegmentsOf, LadderOk, Standard, Budgets, StagesOk, Anneal;
    assert lone.schedule.betas[0..lone.Len()] == lone.schedule.betas;
  }

  /**
   * A fresh leg is a lone anneal of its budget: after any slicing of the whole
   * job, the state read back at that leg's checkpoint is the final state of
   * the lone job, itself sliced in any way, on any slot.
   */
  lemma FreshLegIsLoneAnneal<S>(
      d: Device<S>, ladder: Ladder, key: ScheduleKey, job: SlotJob, leg: nat, lone: SlotJob,
      slotA: nat, garbageA: S, limitsA: seq<Limits>, slotB: nat, garbageB: S, limitsB: seq<Limits>)
    requires Prepared(ladder, key, job) && job.Valid() && AllPositive(limitsA) && AllPositive(limitsB)
    requires job.freshFrom <= leg < |job.checkpoints| == |Budgets(key)|
    requires LoneLeg(d, ladder, key, job, leg, lone) && lone.Valid()
    requires RunJob(d, job, slotA, garbageA, limitsA).r.nextCheckpoint > leg
    requires RunJob(d, lone, slotB, garbageB, limitsB).r.nextCheckpoint == 1
    ensures var whole := CheckpointStates(RunJob(d, job, slotA, garbageA, limitsA).outputs);
            var alone := CheckpointStates(RunJob(d, lone, slotB, garbageB, limitsB).outputs);
            |whole| > leg && alone == [whole[leg]]
  {
    FreshLegState(d, ladder, key, job, leg, lone);
    RunCheckpoints(d, job, slotA, garbageA, limitsA);
    RunCheckpoints(d, lone, slotB, garbageB, limitsB);
    hide RunJob, StrictlyIncreasing, SegmentsOf, LadderOk, Standard, CheckpointStates, Budgets, StateAt, Prepared, LegStates;
    LegStateAt(d, job, RunJob(d, job, slotA, garbageA, limitsA).r.nextCheckpoint, leg);
    LegStateAt(d, lone, 1, 0);
  }

  lemma {:induction false} LegStateAt<S>(d: Device<S>, job: SlotJob, count: nat, leg: nat)
    requires job.Valid() && leg < count <= |job.checkpoints|
    ensures job.checkpoints[leg] <= job.Len()
    ensures |LegStates(d, job, count)| == count
    ensures LegStates(d, job, count)[leg] == StateAt(d, job, leg, job.checkpoints[leg])
    decreases count
  {
    hide StateAt, StrictlyIncreasing;
    LegStatesNext(d, job, leg);
    LegStatesNext(d, job, count - 1);
    if leg < count - 1 {
      LegStateAt(d, job, count - 1, leg);
    } else if count > 1 {
      LegStateAt(d, job, count - 1, leg - 1);
    }
  }

  /**
   * The continuing legs are one anneal: at checkpoint `leg` the state is one
   * uninterrupted anneal of that stage's sweep count, from the job's own seed.
   */
  lemma ContinuingLegsAreOneAnneal<S>(
      d: Device<S>, ladder: Ladder, key: ScheduleKey, job: SlotJob, leg: nat, slot: nat, garbage: S, limits: seq<Limits>)
    requires Prepared(ladder, key, job) && job.Valid() && AllPositive(limits)
    requires leg < job.freshFrom && leg < |job.checkpoints| == |Budgets(key)|
    requires RunJob(d, job, slot, garbage, limits).r.nextCheckpoint > leg
    ensures Budgets(key)[leg] <= |job.schedule.betas|
    ensures var states := CheckpointStates(RunJob(d, job, slot, garbage, limits).outputs);
            |states| > leg
            && states[leg] == Anneal(d, job.coefficients, d.init(d.seedOf(job.seed, 0)),
                                     job.schedule.betas[..Budgets(key)[leg]])
  {
    RunCheckpoints(d, job, slot, garbage, limits);
    SegmentsSplit(ladder, key);
    hide RunJob, StrictlyIncreasing, SegmentsOf, LadderOk, CheckpointStates, Budgets;
    LegStateAt(d, job, RunJob(d, job, slot, garbage, limits).r.nextCheckpoint, leg);
    assert job.schedule.betas[0..Budgets(key)[leg]] == job.schedule.betas[..Budgets(key)[leg]];
  }
}
