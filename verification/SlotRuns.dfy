/**
 * What a whole run of slot steps computes (src/slots.rs). Everything a run
 * leaves behind, its stored state, its step ranges and its readbacks, is a
 * function of the job and the schedule position alone: the slice limits, the
 * slot and the storage's old contents cannot be seen.
 */
module SlotRuns {
  import opened Wrappers
  import opened Slots

  /** The leg that sweep number `p` (counted from 1) belongs to. */
  function LegOf(job: SlotJob, p: nat): (leg: nat)
    requires job.Valid() && 0 < p <= job.Len()
    ensures leg < |job.checkpoints| && job.LegStart(leg) < p <= job.checkpoints[leg]
  {
    LegFrom(job, p, 0)
  }

  function LegFrom(job: SlotJob, p: nat, k: nat): (leg: nat)
    requires job.Valid() && p <= job.Len() && k < |job.checkpoints| && job.LegStart(k) < p
    ensures leg < |job.checkpoints| && job.LegStart(leg) < p <= job.checkpoints[leg]
    decreases |job.checkpoints| - k
  {
    if p <= job.checkpoints[k] then k else LegFrom(job, p, k + 1)
  }

  lemma LegOrder(job: SlotJob, leg: nat)
    requires job.Valid() && leg < |job.checkpoints|
    ensures forall k :: 0 <= k < leg ==> job.checkpoints[k] <= job.LegStart(leg)
  {
  }

  lemma LegUnique(job: SlotJob, p: nat, leg: nat)
    requires job.Valid() && 0 < p <= job.Len()
    requires leg < |job.checkpoints| && job.LegStart(leg) < p <= job.checkpoints[leg]
    ensures LegOf(job, p) == leg
  {
    LegOrder(job, leg);
    LegOrder(job, LegOf(job, p));
  }

  /** Where a run must read back: every checkpoint, and for an observe job
      every multiple of the interval as well. */
  predicate IsStop(job: SlotJob, p: nat)
    requires job.Valid() && 0 < p <= job.Len()
  {
    job.checkpoints[LegOf(job, p)] == p || (job.observe && p % OBSERVE_INTERVAL == 0)
  }

  /** The readback due at stop `p`. Only a checkpoint counts as one. */
  function OutputAt<S>(d: Device<S>, job: SlotJob, p: nat): Output<S>
    requires job.Valid() && 0 < p <= job.Len()
  {
    var leg := LegOf(job, p);
    var checkpoint := job.checkpoints[leg] == p;
    Output(leg, checkpoint && leg + 1 == |job.checkpoints|, !checkpoint, p, StateAt(d, job, leg, p))
  }

  /** Every readback due in the first `position` sweeps, in order. */
  function Expected<S>(d: Device<S>, job: SlotJob, position: nat): seq<Output<S>>
    requires job.Valid() && position <= job.Len()
  {
    if position == 0 then []
    else
      Expected(d, job, position - 1)
      + (if IsStop(job, position) then [OutputAt(d, job, position)] else [])
  }

  lemma {:induction false} ExpectedSkips<S>(d: Device<S>, job: SlotJob, start: nat, end: nat)
    requires job.Valid() && start < end <= job.Len()
    requires forall p :: start < p < end ==> !IsStop(job, p)
    ensures Expected(d, job, end)
         == Expected(d, job, start) + (if IsStop(job, end) then [OutputAt(d, job, end)] else [])
    decreases end - start
  {
    hide IsStop, OutputAt, LegOf, StrictlyIncreasing;
    if start + 1 < end {
      ExpectedSkips(d, job, start, end - 1);
      assert Expected(d, job, start) + [] == Expected(d, job, start);
    }
  }

  /** The leg of a job's last executed sweep. */
  function LastLeg(r: ResidentJob): (leg: nat)
    requires r.Ok() && r.position > 0
    ensures leg == LegOf(r.job, r.position)
  {
    var leg := if r.position == r.job.LegStart(r.nextCheckpoint) then r.nextCheckpoint - 1 else r.nextCheckpoint;
    LegUnique(r.job, r.position, leg);
    leg
  }

  /** A step never runs over a stop, and writes output exactly when it ends on one. */
  lemma StepStops<S>(d: Device<S>, r: ResidentJob, slot: nat, limits: Limits)
    requires r.Ok() && !r.Done() && limits.Positive()
    ensures var step := StepOf(d, r, slot, limits); var end := r.position + step.betaCount;
            && r.position < end <= r.job.Len()
            && LegOf(r.job, end) == r.nextCheckpoint
            && (forall p :: r.position < p < end ==> !IsStop(r.job, p))
            && (step.flags.writeOutput <==> IsStop(r.job, end))
            && (step.flags.observe <==> step.flags.writeOutput && r.job.checkpoints[r.nextCheckpoint] != end)
  {
    StepBounds(d, r, slot, limits);
    var step := StepOf(d, r, slot, limits);
    var end := r.position + step.betaCount;
    forall p | r.position < p <= end
      ensures LegOf(r.job, p) == r.nextCheckpoint
    {
      LegUnique(r.job, p, r.nextCheckpoint);
    }
    forall p | r.position < p < end && r.job.observe
      ensures p % OBSERVE_INTERVAL != 0
    {
      NoMultipleInside(r.position, p);
    }
    if r.job.observe && end < r.job.checkpoints[r.nextCheckpoint] && !step.flags.writeOutput {
      NoMultipleInside(r.position, end);
    }
  }

  /** How far one step may take a job: to the limit of its leg, the deep one for a
      fresh leg, and short of that only to a stop. */
  predicate StepsUpTo(r: ResidentJob, step: SlotStep, slice: nat, deepSlice: nat)
    requires r.Ok() && !r.Done()
  {
    var limit := if r.nextCheckpoint >= r.job.freshFrom then deepSlice else slice;
    var end := r.position + step.betaCount;
    && step.betaStart == r.position && step.numBetas == r.job.Len()
    && 0 < step.betaCount <= limit && end <= r.job.checkpoints[r.nextCheckpoint] <= r.job.Len()
    && (step.betaCount == limit || IsStop(r.job, end))
  }

  lemma StepLength<S>(d: Device<S>, r: ResidentJob, slot: nat, limits: Limits)
    requires r.Ok() && !r.Done() && limits.Positive()
    ensures StepsUpTo(r, StepOf(d, r, slot, limits), limits.slice, limits.deepSlice)
  {
    hide IsStop;
    StepBounds(d, r, slot, limits);
    StepStops(d, r, slot, limits);
  }

  lemma NoMultipleInside(position: nat, p: nat)
    requires position < p < (position / OBSERVE_INTERVAL + 1) * OBSERVE_INTERVAL
    ensures p % OBSERVE_INTERVAL != 0
  {
    var k := position / OBSERVE_INTERVAL;
    assert k * OBSERVE_INTERVAL <= position;
  }

  /** The kernel restarts exactly where the reference starts a new anneal. */
  lemma FreshIsAnnealStart<S>(d: Device<S>, r: ResidentJob, slot: nat, limits: Limits)
    requires r.Ok() && !r.Done() && limits.Positive()
    ensures var step := StepOf(d, r, slot, limits);
            step.Fresh() <==> r.position == r.job.AnnealStart(r.nextCheckpoint)
  {
    if r.nextCheckpoint > 0 && r.nextCheckpoint < r.job.freshFrom {
      assert r.job.LegStart(r.nextCheckpoint) > 0;
    }
  }

  lemma StepPlace<S>(d: Device<S>, r: ResidentJob, slot: nat, limits: Limits)
    requires r.Ok() && !r.Done()
    ensures var step := StepOf(d, r, slot, limits);
            && step.betaStart == r.position && step.numBetas == r.job.Len()
            && step.seed == d.seedOf(r.job.seed, r.nextCheckpoint)
  {
  }

  lemma LaterLegsStartLater(job: SlotJob, leg: nat)
    requires job.Valid() && 0 < leg <= |job.checkpoints|
    ensures job.LegStart(leg) > 0
  {
  }

  /** A step that draws no state of its own continues the anneal of the last one. */
  lemma SameAnneal(r: ResidentJob)
    requires r.Ok() && !r.Done() && r.position > 0 && r.position != r.job.AnnealStart(r.nextCheckpoint)
    ensures r.job.AnnealStart(LastLeg(r)) == r.job.AnnealStart(r.nextCheckpoint) < r.position
    ensures r.job.AnnealLeg(LastLeg(r)) == r.job.AnnealLeg(r.nextCheckpoint)
  {
    var leg, last := r.nextCheckpoint, LastLeg(r);
    assert last == leg || (last == leg - 1 && leg < r.job.freshFrom);
  }

  /** One step carries the reference state forward. */
  lemma StepState<S>(d: Device<S>, slot: nat, run: Run<S>, limits: Limits)
    requires run.r.Ok() && !run.r.Done() && limits.Positive()
    requires run.r.position > 0 ==> run.stored == StateAt(d, run.r.job, LastLeg(run.r), run.r.position)
    ensures var step := StepOf(d, run.r, slot, limits); var end := run.r.position + step.betaCount;
            end <= run.r.job.Len()
            && Execute(d, run.r.job.coefficients, run.r.job.schedule.betas, run.stored, step)
            == StateAt(d, run.r.job, run.r.nextCheckpoint, end)
  {
    hide StepOf, Anneal, LegOf, StrictlyIncreasing, LastLeg, Execute;
    var r, job, leg := run.r, run.r.job, run.r.nextCheckpoint;
    StepBounds(d, r, slot, limits);
    FreshIsAnnealStart(d, r, slot, limits);
    StepPlace(d, r, slot, limits);
    var step := StepOf(d, r, slot, limits);
    var end := r.position + step.betaCount;
    Executes(d, job.coefficients, job.schedule.betas, run.stored, step);
    if step.Fresh() {
      if 0 < leg {
        LaterLegsStartLater(job, leg);
      }
      assert job.AnnealLeg(leg) == leg;
    } else {
      SameAnneal(r);
      var start, betas := job.AnnealStart(leg), job.schedule.betas;
      assert betas[start..end] == betas[start..r.position] + betas[r.position..end];
      var first := d.init(d.seedOf(job.seed, job.AnnealLeg(leg)));
      AnnealAppend(d, job.coefficients, first, betas[start..r.position], betas[r.position..end]);
    }
  }

  lemma Executes<S>(d: Device<S>, c: Coefficients, region: seq<real>, stored: S, step: SlotStep)
    requires step.betaStart + step.betaCount <= step.numBetas <= |region|
    ensures Execute(d, c, region, stored, step)
         == Anneal(d, c, if step.Fresh() then d.init(step.seed) else stored,
                   region[step.betaStart..step.betaStart + step.betaCount])
  {
    hide Anneal;
  }

  /** Everything a run leaves behind, as a function of its position alone. */
  ghost predicate Faithful<S>(d: Device<S>, job: SlotJob, run: Run<S>)
    requires job.Valid() && run.r.Ok() && run.r.job == job && run.r.position <= job.Len()
  {
    && (run.r.position > 0 ==> run.stored == StateAt(d, job, LastLeg(run.r), run.r.position))
    && run.outputs == Expected(d, job, run.r.position)
    && (run.r.hasOutput <==> run.outputs != [])
  }

  lemma AdvanceFaithful<S>(d: Device<S>, slot: nat, run: Run<S>, limits: Limits)
    requires run.r.Ok() && run.r.position <= run.r.job.Len() && !run.r.Done() && limits.Positive()
    requires Faithful(d, run.r.job, run)
    ensures var next := Advance(d, slot, run, limits);
            && next.r.Ok() && next.r.job == run.r.job && next.r.position <= run.r.job.Len()
            && Faithful(d, run.r.job, next)
  {
    hide StepOf, Execute, StateAt, Expected, LegOf, LastLeg, IsStop, StrictlyIncreasing, SaturatingAdd;
    AdvanceOk(d, slot, run, limits);
    StepState(d, slot, run, limits);
    StepStops(d, run.r, slot, limits);
    var next := Advance(d, slot, run, limits);
    ExpectedSkips(d, run.r.job, run.r.position, next.r.position);
    assert LastLeg(next.r) == run.r.nextCheckpoint;
  }

  /**
   * Slicing preserves meaning: whatever limits a run was given and whatever
   * its slot held before, its state and its readbacks are the reference's.
   */
  lemma {:induction false} SlicingIsInvisible<S>(
      d: Device<S>, job: SlotJob, slot: nat, garbage: S, limits: seq<Limits>)
    requires job.Valid() && AllPositive(limits)
    ensures Faithful(d, job, RunJob(d, job, slot, garbage, limits))
    decreases |limits|
  {
    if limits != [] {
      var rest, last := limits[..|limits| - 1], limits[|limits| - 1];
      SlicingIsInvisible(d, job, slot, garbage, rest);
      var before := RunJob(d, job, slot, garbage, rest);
      if !before.r.Done() {
        AdvanceFaithful(d, slot, before, last);
      }
    }
  }

  /** The states a run handed back at its checkpoints. */
  function CheckpointStates<S>(outputs: seq<Output<S>>): seq<S> {
    if outputs == [] then []
    else
      var last := outputs[|outputs| - 1];
      CheckpointStates(outputs[..|outputs| - 1]) + (if last.observe then [] else [last.state])
  }

  /** The reference for them: each leg's anneal, alone and in one piece. */
  function LegStates<S>(d: Device<S>, job: SlotJob, count: nat): seq<S>
    requires job.Valid() && count <= |job.checkpoints|
  {
    if count == 0 then []
    else
      assert job.checkpoints[count - 1] <= job.Len();
      LegStates(d, job, count - 1) + [StateAt(d, job, count - 1, job.checkpoints[count - 1])]
  }

  /** How many checkpoints the first `position` sweeps pass. */
  function Passed(job: SlotJob, position: nat): nat
    requires job.Valid() && position <= job.Len()
  {
    if position == 0 then 0
    else
      var leg := LegOf(job, position);
      if job.checkpoints[leg] == position then leg + 1 else leg
  }

  lemma PassedBefore(job: SlotJob, position: nat)
    requires job.Valid() && 0 < position <= job.Len()
    ensures Passed(job, position - 1) == LegOf(job, position)
  {
    var leg := LegOf(job, position);
    if position == 1 {
      LegUnique(job, 1, 0);
    } else if job.LegStart(leg) < position - 1 {
      LegUnique(job, position - 1, leg);
    } else {
      LegUnique(job, position - 1, leg - 1);
    }
  }

  lemma CheckpointStatesStep<S>(outputs: seq<Output<S>>, more: Output<S>)
    ensures CheckpointStates(outputs + [more])
         == CheckpointStates(outputs) + (if more.observe then [] else [more.state])
  {
    assert (outputs + [more])[..|outputs|] == outputs;
  }

  /** One sweep adds a checkpoint state exactly when it ends a leg. */
  lemma CheckpointAt<S>(d: Device<S>, job: SlotJob, position: nat)
    requires job.Valid() && 0 < position <= job.Len()
    ensures var leg := LegOf(job, position);
            CheckpointStates(Expected(d, job, position))
            == CheckpointStates(Expected(d, job, position - 1))
               + if job.checkpoints[leg] == position then [StateAt(d, job, leg, position)] else []
  {
    var shorter := Expected(d, job, position - 1);
    if IsStop(job, position) {
      CheckpointStatesStep(shorter, OutputAt(d, job, position));
    } else {
      assert shorter + [] == shorter;
    }
    hide StateAt, CheckpointStates, StrictlyIncreasing, LegOf;
  }

  lemma NothingDue<S>(d: Device<S>, job: SlotJob)
    requires job.Valid()
    ensures CheckpointStates(Expected(d, job, 0)) == LegStates(d, job, 0)
  {
  }

  lemma LegStatesNext<S>(d: Device<S>, job: SlotJob, leg: nat)
    requires job.Valid() && leg < |job.checkpoints|
    ensures job.checkpoints[leg] <= job.Len() && LegStates(d, job, leg) + [] == LegStates(d, job, leg)
    ensures LegStates(d, job, leg + 1) == LegStates(d, job, leg) + [StateAt(d, job, leg, job.checkpoints[leg])]
  {
    hide StateAt;
  }

  lemma {:induction false} ExpectedCheckpoints<S>(d: Device<S>, job: SlotJob, position: nat)
    requires job.Valid() && position <= job.Len()
    ensures Passed(job, position) <= |job.checkpoints|
    ensures CheckpointStates(Expected(d, job, position)) == LegStates(d, job, Passed(job, position))
  {
    hide StateAt, LegOf, StrictlyIncreasing, CheckpointStates, Expected;
    if position == 0 {
      NothingDue(d, job);
    } else {
      ExpectedCheckpoints(d, job, position - 1);
      PassedBefore(job, position);
      CheckpointAt(d, job, position);
      LegStatesNext(d, job, LegOf(job, position));
    }
  }

  /**
   * Observe points are transparent. Two runs of jobs that differ only in
   * `observe`, sliced independently on different storage, hand back the same
   * states at the checkpoints they both reach, and those are the lone anneals.
   */
  lemma ObservingChangesNothing<S>(
      d: Device<S>, job: SlotJob, other: SlotJob,
      slotA: nat, garbageA: S, limitsA: seq<Limits>,
      slotB: nat, garbageB: S, limitsB: seq<Limits>)
    requires job.Valid() && other == job.(observe := other.observe)
    requires AllPositive(limitsA) && AllPositive(limitsB)
    ensures var a := RunJob(d, job, slotA, garbageA, limitsA);
            var b := RunJob(d, other, slotB, garbageB, limitsB);
            && CheckpointStates(a.outputs) == LegStates(d, job, a.r.nextCheckpoint)
            && CheckpointStates(b.outputs) == LegStates(d, job, b.r.nextCheckpoint)
            && (a.r.nextCheckpoint <= b.r.nextCheckpoint
                ==> CheckpointStates(a.outputs) <= CheckpointStates(b.outputs))
  {
    RunCheckpoints(d, job, slotA, garbageA, limitsA);
    RunCheckpoints(d, other, slotB, garbageB, limitsB);
    var a := RunJob(d, job, slotA, garbageA, limitsA);
    var b := RunJob(d, other, slotB, garbageB, limitsB);
    LegStatesIgnoreObserve(d, job, other, b.r.nextCheckpoint);
    if a.r.nextCheckpoint <= b.r.nextCheckpoint {
      LegStatesPrefix(d, job, a.r.nextCheckpoint, b.r.nextCheckpoint);
    }
  }

  lemma RunCheckpoints<S>(d: Device<S>, job: SlotJob, slot: nat, garbage: S, limits: seq<Limits>)
    requires job.Valid() && AllPositive(limits)
    ensures var run := RunJob(d, job, slot, garbage, limits);
            CheckpointStates(run.outputs) == LegStates(d, job, run.r.nextCheckpoint)
  {
    SlicingIsInvisible(d, job, slot, garbage, limits);
    var r := RunJob(d, job, slot, garbage, limits).r;
    ExpectedCheckpoints(d, job, r.position);
    if r.position > 0 {
      var leg := LastLeg(r);
    }
    assert Passed(job, r.position) == r.nextCheckpoint;
  }

  lemma {:induction false} LegStatesIgnoreObserve<S>(d: Device<S>, job: SlotJob, other: SlotJob, count: nat)
    requires job.Valid() && other == job.(observe := other.observe) && count <= |job.checkpoints|
    ensures LegStates(d, job, count) == LegStates(d, other, count)
  {
    if count > 0 {
      LegStatesIgnoreObserve(d, job, other, count - 1);
    }
  }

  lemma {:induction false} LegStatesPrefix<S>(d: Device<S>, job: SlotJob, a: nat, b: nat)
    requires job.Valid() && a <= b <= |job.checkpoints|
    ensures LegStates(d, job, a) <= LegStates(d, job, b)
    decreases b
  {
    if a < b {
      LegStatesPrefix(d, job, a, b - 1);
    }
  }

  // ----- The steps themselves -----

  /** Steps cover `0 .. position` in order, each sweep once, and re-initialise
      exactly at the start of each anneal, from that anneal's own seed. */
  ghost predicate Covers<S>(d: Device<S>, job: SlotJob, steps: seq<SlotStep>, position: nat)
    requires job.Valid() && position <= job.Len()
    decreases |steps|
  {
    if steps == [] then position == 0
    else
      var last := steps[|steps| - 1];
      && last.betaCount > 0
      && last.betaStart + last.betaCount == position
      && (var leg := LegOf(job, position);
          && job.LegStart(leg) <= last.betaStart
          && (last.Fresh() <==> last.betaStart == job.AnnealStart(leg))
          && (last.Fresh() ==> last.seed == d.seedOf(job.seed, job.AnnealLeg(leg))))
      && Covers(d, job, steps[..|steps| - 1], last.betaStart)
  }

  /** One more step, from `position` to the end of its sweeps in leg `leg`. */
  lemma CoversMore<S>(d: Device<S>, job: SlotJob, steps: seq<SlotStep>, step: SlotStep, position: nat, leg: nat)
    requires job.Valid() && position + step.betaCount <= job.Len() && leg <= |job.checkpoints|
    requires Covers(d, job, steps, position) && step.betaStart == position && step.betaCount > 0
    requires LegOf(job, position + step.betaCount) == leg && job.LegStart(leg) <= position
    requires step.Fresh() <==> position == job.AnnealStart(leg)
    requires step.Fresh() ==> step.seed == d.seedOf(job.seed, job.AnnealLeg(leg))
    ensures Covers(d, job, steps + [step], position + step.betaCount)
  {
    hide LegOf, StrictlyIncreasing;
    assert (steps + [step])[..|steps|] == steps;
  }

  lemma CoversStep<S>(d: Device<S>, slot: nat, run: Run<S>, limits: Limits)
    requires run.r.Ok() && !run.r.Done() && limits.Positive() && run.r.position <= run.r.job.Len()
    requires Covers(d, run.r.job, run.steps, run.r.position)
    ensures var next := Advance(d, slot, run, limits);
            next.r.position <= run.r.job.Len() && Covers(d, run.r.job, next.steps, next.r.position)
  {
    hide StepOf, Execute, IsStop, LegOf, StrictlyIncreasing, SaturatingAdd, Covers;
    var r, leg := run.r, run.r.nextCheckpoint;
    StepStops(d, r, slot, limits);
    FreshIsAnnealStart(d, r, slot, limits);
    StepPlace(d, r, slot, limits);
    var step := StepOf(d, r, slot, limits);
    if 0 < leg < r.job.freshFrom {
      LaterLegsStartLater(r.job, leg);
    }
    CoversMore(d, r.job, run.steps, step, r.position, leg);
  }

  lemma {:induction false} StepsCover<S>(d: Device<S>, job: SlotJob, slot: nat, garbage: S, limits: seq<Limits>)
    requires job.Valid() && AllPositive(limits)
    ensures var run := RunJob(d, job, slot, garbage, limits); Covers(d, job, run.steps, run.r.position)
    decreases |limits|
  {
    if limits != [] {
      var rest, last := limits[..|limits| - 1], limits[|limits| - 1];
      StepsCover(d, job, slot, garbage, rest);
      var before := RunJob(d, job, slot, garbage, rest);
      if !before.r.Done() {
        CoversStep(d, slot, before, last);
      }
    }
  }

  /** Every step moves a live job forward, so a schedule of `n` sweeps is
      finished after at most `n` steps. */
  lemma {:induction false} RunFinishes<S>(d: Device<S>, job: SlotJob, slot: nat, garbage: S, limits: seq<Limits>)
    requires job.Valid() && AllPositive(limits)
    ensures var r := RunJob(d, job, slot, garbage, limits).r;
            && r.position >= Min(|limits|, job.Len())
            && (|limits| >= job.Len() ==> r.Done())
    decreases |limits|
  {
    if limits != [] {
      var rest, last := limits[..|limits| - 1], limits[|limits| - 1];
      RunFinishes(d, job, slot, garbage, rest);
      var before := RunJob(d, job, slot, garbage, rest);
      if !before.r.Done() {
        StepBounds(d, before.r, slot, last);
      }
      var r := RunJob(d, job, slot, garbage, limits).r;
    }
  }

  /**
   * Readbacks are complete: an observe job is never silent for longer than the
   * interval, wherever the window of that length lies in what has run.
   */
  lemma NoLongSilence<S>(d: Device<S>, job: SlotJob, slot: nat, garbage: S, limits: seq<Limits>, from: nat)
    requires job.Valid() && AllPositive(limits) && job.observe
    requires from + OBSERVE_INTERVAL <= RunJob(d, job, slot, garbage, limits).r.position
    ensures var outputs := RunJob(d, job, slot, garbage, limits).outputs;
            exists i :: 0 <= i < |outputs| && from < outputs[i].position <= from + OBSERVE_INTERVAL
  {
    SlicingIsInvisible(d, job, slot, garbage, limits);
    var stop := NextMultiple(from);
    var run := RunJob(d, job, slot, garbage, limits);
    StopIsReadBack(d, job, stop, run.r.position);
    var i :| 0 <= i < |run.outputs| && run.outputs[i] == OutputAt(d, job, stop);
  }

  function NextMultiple(p: nat): (m: nat)
    ensures p < m <= p + OBSERVE_INTERVAL && m % OBSERVE_INTERVAL == 0
  {
    (p / OBSERVE_INTERVAL + 1) * OBSERVE_INTERVAL
  }

  lemma {:induction false} StopIsReadBack<S>(d: Device<S>, job: SlotJob, stop: nat, position: nat)
    requires job.Valid() && 0 < stop <= position <= job.Len() && IsStop(job, stop)
    ensures exists i :: 0 <= i < |Expected(d, job, position)| && Expected(d, job, position)[i] == OutputAt(d, job, stop)
    decreases position
  {
    var outputs := Expected(d, job, position);
    if stop == position {
      assert outputs[|outputs| - 1] == OutputAt(d, job, stop);
    } else {
      StopIsReadBack(d, job, stop, position - 1);
      var shorter := Expected(d, job, position - 1);
      var i :| 0 <= i < |shorter| && shorter[i] == OutputAt(d, job, stop);
      assert outputs[i] == OutputAt(d, job, stop);
    }
  }

  /** What the readback due at `p` says about `p`. */
  lemma OutputMeaning<S>(d: Device<S>, job: SlotJob, p: nat)
    requires job.Valid() && 0 < p <= job.Len() && IsStop(job, p)
    ensures var out := OutputAt(d, job, p);
            && (out.observe <==> p !in job.checkpoints)
            && (out.observe ==> job.observe && p % OBSERVE_INTERVAL == 0 && !out.last)
            && (!out.observe ==> job.checkpoints[out.index] == p && (out.last <==> p == job.Len()))
            && (forall k :: 0 <= k < |job.checkpoints| ==> (job.checkpoints[k] < p <==> k < out.index))
  {
    var leg := LegOf(job, p);
    forall k | 0 <= k < |job.checkpoints|
      ensures job.checkpoints[k] < p <==> k < leg
      ensures job.checkpoints[k] == p ==> k == leg
    {
      assert k < leg ==> job.checkpoints[k] <= job.LegStart(leg);
      assert leg < k ==> job.checkpoints[leg] < job.checkpoints[k];
    }
  }

  /**
   * Observe readbacks happen exactly at the multiples of the interval that are
   * not checkpoints, and name the checkpoint still to come. Every entry of a
   * run's readbacks is the one due at its own position.
   */
  lemma {:induction false} ReadbacksInOrder<S>(d: Device<S>, job: SlotJob, position: nat, i: nat)
    requires job.Valid() && position <= job.Len() && i < |Expected(d, job, position)|
    ensures var outputs := Expected(d, job, position); var p := outputs[i].position;
            && 0 < p <= position
            && (i > 0 ==> outputs[i - 1].position < p)
            && IsStop(job, p) && outputs[i] == OutputAt(d, job, p)
    decreases position
  {
    hide IsStop, StateAt, LegOf, StrictlyIncreasing;
    var shorter := Expected(d, job, position - 1);
    if i < |shorter| {
      ReadbacksInOrder(d, job, position - 1, i);
    } else if i > 0 {
      ReadbacksInOrder(d, job, position - 1, i - 1);
    }
  }
}
