/**
 * The slot pool (src/slots.rs): admission, stepping, retirement and readback
 * over one device command at a time.
 */
module SlotPools {
  import opened Wrappers
  import opened Slots
  import opened SlotRuns

  datatype Fault = Driver | TooLarge

  /** What a completed command says about one slot that wrote output. */
  datatype Checkpoint = Checkpoint(
    slot: nat, index: nat, last: bool, best: int, observe: bool, position: nat)

  /** Where the device stands with a submitted command. */
  datatype Status = Pending | Failed | Completed(deviceUs: nat)

  const MAX_SWEEPS: nat := 1_048_576
  const MSA_LANES: nat := 32
  const MSA_STATIC_TG_BYTES: nat := 128
  const STEP_BYTES: nat := 24
  const I32_MAX: nat := 0x7FFF_FFFF
  const USIZE_MAX: nat := 0xFFFF_FFFF_FFFF_FFFF

  /** Split a command's device time over its steps; the first steps carry the
      remainder. */
  function DeviceTimeShare(total: nat, count: nat, index: nat): nat
    requires count > 0
  {
    total / count + (if index < total % count then 1 else 0)
  }

  function ShareSum(total: nat, count: nat, upTo: nat): nat
    requires count > 0
  {
    if upTo == 0 then 0 else ShareSum(total, count, upTo - 1) + DeviceTimeShare(total, count, upTo - 1)
  }

  lemma {:induction false} ShareSumPartial(total: nat, count: nat, upTo: nat)
    requires count > 0
    ensures ShareSum(total, count, upTo) == upTo * (total / count) + Min(upTo, total % count)
  {
    if upTo > 0 {
      ShareSumPartial(total, count, upTo - 1);
      assert upTo * (total / count) == (upTo - 1) * (total / count) + total / count;
    }
  }

  /** Shares reconcile exactly with the command's time, and differ by at most one. */
  lemma SharesReconcile(total: nat, count: nat, i: nat, j: nat)
    requires count > 0 && i < count && j < count
    ensures ShareSum(total, count, count) == total
    ensures DeviceTimeShare(total, count, i) <= DeviceTimeShare(total, count, j) + 1
  {
    hide ShareSum, DeviceTimeShare;
    SharesSum(total, count);
    SharesEven(total, count, i, j);
  }

  lemma SharesSum(total: nat, count: nat)
    requires count > 0
    ensures ShareSum(total, count, count) == total
  {
    hide ShareSum;
    ShareSumPartial(total, count, count);
    assert count * (total / count) + total % count == total;
  }

  lemma SharesEven(total: nat, count: nat, i: nat, j: nat)
    requires count > 0
    ensures DeviceTimeShare(total, count, i) <= DeviceTimeShare(total, count, j) + 1
  {
  }

  predicate Steppable(slots: seq<Option<ResidentJob>>) {
    forall s :: 0 <= s < |slots| && slots[s].Some? ==> slots[s].value.Ok() && !slots[s].value.Done()
  }

  /** The steps of one command: one per live slot, in slot order. */
  function Issued<S>(d: Device<S>, slots: seq<Option<ResidentJob>>, limits: Limits): seq<SlotStep>
    requires Steppable(slots)
  {
    if slots == [] then []
    else
      var s := |slots| - 1;
      Issued(d, slots[..s], limits)
      + (if slots[s].Some? then [StepOf(d, slots[s].value, s, limits)] else [])
  }

  function LiveCount(slots: seq<Option<ResidentJob>>): nat {
    if slots == [] then 0
    else LiveCount(slots[..|slots| - 1]) + (if slots[|slots| - 1].Some? then 1 else 0)
  }

  lemma StepNames<S>(d: Device<S>, r: ResidentJob, s: nat, limits: Limits)
    requires r.Ok() && !r.Done()
    ensures StepOf(d, r, s, limits).slot == s
  {
  }

  /** Step `k` of a command is that of a live slot. */
  lemma {:induction false} IssuedStep<S>(d: Device<S>, slots: seq<Option<ResidentJob>>, limits: Limits, k: nat)
    requires Steppable(slots) && k < |Issued(d, slots, limits)|
    ensures var step := Issued(d, slots, limits)[k];
            && step.slot < |slots| && slots[step.slot].Some?
            && step == StepOf(d, slots[step.slot].value, step.slot, limits)
  {
    var s := |slots| - 1;
    if k < |Issued(d, slots[..s], limits)| {
      IssuedStep(d, slots[..s], limits, k);
    } else {
      StepNames(d, slots[s].value, s, limits);
    }
    hide StepOf;
  }

  lemma {:induction false} IssuedOrder<S>(d: Device<S>, slots: seq<Option<ResidentJob>>, limits: Limits, k: nat, l: nat)
    requires Steppable(slots) && k < l < |Issued(d, slots, limits)|
    ensures Issued(d, slots, limits)[k].slot < Issued(d, slots, limits)[l].slot
  {
    var s := |slots| - 1;
    if l < |Issued(d, slots[..s], limits)| {
      IssuedOrder(d, slots[..s], limits, k, l);
    } else {
      IssuedStep(d, slots[..s], limits, k);
      StepNames(d, slots[s].value, s, limits);
    }
    hide StepOf;
  }

  lemma {:induction false} IssuedFor<S>(d: Device<S>, slots: seq<Option<ResidentJob>>, limits: Limits, t: nat)
    returns (k: nat)
    requires Steppable(slots) && t < |slots| && slots[t].Some?
    ensures k < |Issued(d, slots, limits)| && Issued(d, slots, limits)[k].slot == t
  {
    var s := |slots| - 1;
    if t < s {
      k := IssuedFor(d, slots[..s], limits, t);
    } else {
      k := |Issued(d, slots[..s], limits)|;
      StepNames(d, slots[s].value, s, limits);
    }
    hide StepOf;
  }

  lemma {:induction false} IssuedCount<S>(d: Device<S>, slots: seq<Option<ResidentJob>>, limits: Limits)
    requires Steppable(slots)
    ensures |Issued(d, slots, limits)| == LiveCount(slots)
  {
    if slots != [] {
      IssuedCount(d, slots[..|slots| - 1], limits);
    }
    hide StepOf;
  }

  /** Which slots a command's steps name: each live one, once, in order. */
  lemma IssuedNames<S>(d: Device<S>, slots: seq<Option<ResidentJob>>, limits: Limits)
    requires Steppable(slots)
    ensures |Issued(d, slots, limits)| == LiveCount(slots)
    ensures NamesLive(d, limits, Issued(d, slots, limits), slots)
  {
    var steps := Issued(d, slots, limits);
    IssuedCount(d, slots, limits);
    hide StepOf, Issued;
    forall k: nat | k < |steps|
      ensures steps[k].slot < |slots| && slots[steps[k].slot].Some?
      ensures steps[k] == StepOf(d, slots[steps[k].slot].value, steps[k].slot, limits)
    {
      IssuedStep(d, slots, limits, k);
    }
    forall k: nat, l: nat | k < l < |steps|
      ensures steps[k].slot < steps[l].slot
    {
      IssuedOrder(d, slots, limits, k, l);
    }
    forall t: nat | t < |slots| && slots[t].Some?
      ensures exists k :: 0 <= k < |steps| && steps[k].slot == t
    {
      var k := IssuedFor(d, slots, limits, t);
    }
  }

  /** A schedule region starts with the table it is said to hold. */
  ghost predicate Holds(held: Option<BetaTable>, region: seq<real>) {
    held.Some? ==> held.value.betas <= region
  }

  /**
   * A resident job, and its device memory, stand where a run of its own steps,
   * alone on its slot from that slot's old contents, would stand.
   */
  ghost predicate Stands<S>(
      d: Device<S>, s: nat, slot: Option<ResidentJob>, held: Option<BetaTable>, coefficients: Coefficients,
      stored: S, output: S, garbage: S, limits: seq<Limits>)
  {
    slot.Some? ==>
      var r := slot.value;
      && r.job.Valid() && AllPositive(limits)
      && held == Some(r.job.schedule)
      && coefficients == r.job.coefficients
      && var run := RunJob(d, r.job, s, garbage, limits);
         && r == run.r.(deviceUs := r.deviceUs)
         && stored == run.stored
         && Faithful(d, r.job, run)
         && (run.outputs != [] ==> output == run.outputs[|run.outputs| - 1].state)
  }

  lemma BeginStands<S>(d: Device<S>, job: SlotJob, s: nat, stored: S, output: S)
    requires job.Valid()
    ensures Stands(d, s, Some(Begin(job)), Some(job.schedule), job.coefficients, stored, output, stored, [])
  {
  }

  /** A step reads no further into its region than the job's own schedule. */
  lemma ExecuteReadsPrefix<S>(d: Device<S>, job: SlotJob, region: seq<real>, stored: S, step: SlotStep)
    requires job.schedule.betas <= region && step.betaStart <= step.numBetas == job.Len()
    ensures Execute(d, job.coefficients, region, stored, step)
         == Execute(d, job.coefficients, job.schedule.betas, stored, step)
  {
    var end := Min(step.betaStart + step.betaCount, step.numBetas);
    assert region[step.betaStart..end] == job.schedule.betas[step.betaStart..end];
  }

  /** One retired step, executed on the slot's own memory, is one more step of
      the slot's run. */
  lemma StepStands<S>(
      d: Device<S>, s: nat, r: ResidentJob, held: Option<BetaTable>, coefficients: Coefficients,
      region: seq<real>, stored: S, output: S, garbage: S, limits: seq<Limits>, more: Limits, share: nat)
    requires Stands(d, s, Some(r), held, coefficients, stored, output, garbage, limits)
    requires Holds(held, region) && more.Positive() && r.Ok() && !r.Done()
    ensures var step := StepOf(d, r, s, more);
            && step.betaStart <= step.numBetas <= |region|
            && var state := Execute(d, coefficients, region, stored, step);
               Stands(d, s, Some(Retire(r, step, share)), held, coefficients, state,
                      if step.flags.writeOutput then state else output, garbage, limits + [more])
  {
    hide LegOf, Expected, IsStop, StateAt, Anneal, StrictlyIncreasing, StepOf, Execute, LastLeg, SaturatingAdd;
    var run := RunJob(d, r.job, s, garbage, limits);
    var step := StepOf(d, r, s, more);
    SameStep(d, r, run.r, s, more);
    StepBounds(d, r, s, more);
    StepPlace(d, r, s, more);
    ExecuteReadsPrefix(d, r.job, region, stored, step);
    assert (limits + [more])[..|limits|] == limits;
    SlicingIsInvisible(d, r.job, s, garbage, limits + [more]);
    assert RunJob(d, r.job, s, garbage, limits + [more]) == Advance(d, s, run, more);
  }

  /** What retiring a command did to a slot that was live in it. */
  ghost predicate Moved<S>(
      d: Device<S>, s: nat, was: Option<ResidentJob>, now: Option<ResidentJob>, limits: Limits)
  {
    && was.Some? && was.value.Ok() && !was.value.Done()
    && now.Some? && now.value.Ok() && now.value.position <= now.value.job.Len()
    && now.value.(deviceUs := 0) == Retire(was.value.(deviceUs := 0), StepOf(d, was.value, s, limits), 0)
    && was.value.position < now.value.position
  }

  /** The job has just reached a point where it must read back. */
  ghost predicate Stopped(slot: Option<ResidentJob>) {
    slot.Some? && slot.value.job.Valid() && 0 < slot.value.position <= slot.value.job.Len()
    && IsStop(slot.value.job, slot.value.position)
  }

  /** What a reported checkpoint means. */
  ghost predicate Reported<S>(
      d: Device<S>, c: Checkpoint, was: Option<ResidentJob>, now: Option<ResidentJob>, output: S)
  {
    was.Some? && Stopped(now) && now.value.hasOutput &&
    var was, now := was.value, now.value;
    && c.index == was.nextCheckpoint < |now.job.checkpoints|
    && now.job.AnnealStart(c.index) <= now.position
    && (if c.observe
        then now.nextCheckpoint == was.nextCheckpoint && !c.last && now.job.observe
        else now.nextCheckpoint == was.nextCheckpoint + 1 && (c.last <==> now.Done()))
    && c.position == now.position - now.job.AnnealStart(c.index)
    && output == StateAt(d, now.job, c.index, now.position)
    && c.best == d.best(now.job.coefficients, output)
  }

  /** A slot was charged `share` of the command's device time. */
  ghost predicate Charged(was: Option<ResidentJob>, now: Option<ResidentJob>, share: nat) {
    was.Some? && now.Some? && now.value.deviceUs == SaturatingAdd(was.value.deviceUs, share)
  }

  /** Retiring one step: the slot's new entry, what it charges and reports. */
  lemma StepReports<S>(d: Device<S>, s: nat, r: ResidentJob, limits: Limits, share: nat, run: Run<S>)
    requires r.Ok() && !r.Done() && r.position <= r.job.Len() && limits.Positive()
    requires r == run.r.(deviceUs := r.deviceUs) && Faithful(d, r.job, run)
    ensures var step := StepOf(d, r, s, limits);
            var now := Retire(r, step, share);
            && step.betaStart <= step.numBetas == r.job.Len()
            && Moved(d, s, Some(r), Some(now), limits)
            && (Stopped(Some(now)) <==> step.flags.writeOutput)
            && now.position <= r.job.Len()
            && var state := Execute(d, r.job.coefficients, r.job.schedule.betas, run.stored, step);
               step.flags.writeOutput ==>
                 Reported(d, Checkpoint(s, r.nextCheckpoint, !step.flags.observe && now.nextCheckpoint == |r.job.checkpoints|,
                                        d.best(r.job.coefficients, state), step.flags.observe,
                                        now.position - now.job.AnnealStart(r.nextCheckpoint)),
                          Some(r), Some(now), state)
  {
    hide StepOf, Moved, Stopped, Reported, Retire, Execute, Faithful;
    StepMoves(d, s, r, limits, share);
    StepReported(d, s, r, limits, share, run);
    StepPlace(d, r, s, limits);
  }

  lemma StepMoves<S>(d: Device<S>, s: nat, r: ResidentJob, limits: Limits, share: nat)
    requires r.Ok() && !r.Done() && r.position <= r.job.Len() && limits.Positive()
    ensures var step := StepOf(d, r, s, limits);
            var now := Retire(r, step, share);
            && step.betaStart <= step.numBetas == r.job.Len() && now.position <= r.job.Len()
            && Moved(d, s, Some(r), Some(now), limits)
            && (Stopped(Some(now)) <==> step.flags.writeOutput)
  {
    hide StepOf, IsStop, StrictlyIncreasing, LegOf;
    StepStops(d, r, s, limits);
    StepPlace(d, r, s, limits);
    SameStep(d, r, r.(deviceUs := 0), s, limits);
    RetireOk(d, r, s, limits, share);
  }

  lemma RetireOk<S>(d: Device<S>, r: ResidentJob, s: nat, limits: Limits, share: nat)
    requires r.Ok() && !r.Done() && limits.Positive()
    ensures Retire(r, StepOf(d, r, s, limits), share).Ok()
  {
    StepBounds(d, r, s, limits);
    hide SaturatingAdd;
  }

  lemma StepReported<S>(d: Device<S>, s: nat, r: ResidentJob, limits: Limits, share: nat, run: Run<S>)
    requires r.Ok() && !r.Done() && r.position <= r.job.Len() && limits.Positive()
    requires r == run.r.(deviceUs := r.deviceUs) && Faithful(d, r.job, run)
    ensures var step := StepOf(d, r, s, limits);
            var now := Retire(r, step, share);
            && step.betaStart <= step.numBetas == r.job.Len()
            && var state := Execute(d, r.job.coefficients, r.job.schedule.betas, run.stored, step);
               step.flags.writeOutput ==>
                 Reported(d, Checkpoint(s, r.nextCheckpoint, !step.flags.observe && now.nextCheckpoint == |r.job.checkpoints|,
                                        d.best(r.job.coefficients, state), step.flags.observe,
                                        now.position - now.job.AnnealStart(r.nextCheckpoint)),
                          Some(r), Some(now), state)
  {
    hide StepOf, IsStop, StateAt, Expected, Execute, StrictlyIncreasing, LegOf, LastLeg, SaturatingAdd;
    StepStops(d, r, s, limits);
    StepPlace(d, r, s, limits);
    SameStep(d, r, run.r, s, limits);
    StepState(d, s, run, limits);
    ObserveSteps(d, r, s, limits);
  }

  /** A step does not depend on the device time accounted so far. */
  lemma SameStep<S>(d: Device<S>, r: ResidentJob, q: ResidentJob, s: nat, limits: Limits)
    requires r.Ok() && !r.Done() && q == r.(deviceUs := q.deviceUs)
    ensures q.Ok() && !q.Done() && StepOf(d, q, s, limits) == StepOf(d, r, s, limits)
  {
    hide StrictlyIncreasing;
  }

  lemma ObserveSteps<S>(d: Device<S>, r: ResidentJob, s: nat, limits: Limits)
    requires r.Ok() && !r.Done()
    ensures StepOf(d, r, s, limits).flags.observe ==> r.job.observe
  {
    hide StrictlyIncreasing;
  }

  /** A command's steps: one per live slot, in slot order. */
  ghost predicate NamesLive<S>(d: Device<S>, flying: Limits, steps: seq<SlotStep>, slots: seq<Option<ResidentJob>>) {
    && Steppable(slots)
    && (forall k :: 0 <= k < |steps| ==>
          steps[k].slot < |slots| && slots[steps[k].slot].Some?
          && steps[k] == StepOf(d, slots[steps[k].slot].value, steps[k].slot, flying))
    && (forall k, l :: 0 <= k < l < |steps| ==> steps[k].slot < steps[l].slot)
    && (forall s :: 0 <= s < |slots| && slots[s].Some? ==> exists k :: 0 <= k < |steps| && steps[k].slot == s)
  }

  /** The state a completed command leaves: every live slot took its step and
      was charged its share of the time `us`. */
  ghost predicate AllMoved<S>(
      d: Device<S>, flying: Limits, steps: seq<SlotStep>, us: nat,
      was: seq<Option<ResidentJob>>, now: seq<Option<ResidentJob>>)
  {
    && |was| == |now|
    && (forall s :: 0 <= s < |now| && was[s].None? ==> now[s].None?)
    && (forall s :: 0 <= s < |now| && was[s].Some? ==> Moved(d, s, was[s], now[s], flying))
    && (forall k :: 0 <= k < |steps| ==>
          steps[k].slot < |now|
          && Charged(was[steps[k].slot], now[steps[k].slot], DeviceTimeShare(us, |steps|, k)))
  }

  /** The report names exactly the live slots now at a stop, in slot order. */
  ghost predicate AllReported<S>(
      d: Device<S>, was: seq<Option<ResidentJob>>, now: seq<Option<ResidentJob>>, outputs: seq<S>,
      report: seq<Checkpoint>)
  {
    && |was| == |now| == |outputs|
    && (forall i :: 0 <= i < |report| ==>
          report[i].slot < |now|
          && Reported(d, report[i], was[report[i].slot], now[report[i].slot], outputs[report[i].slot]))
    && (forall i, j :: 0 <= i < j < |report| ==> report[i].slot < report[j].slot)
    && (forall s :: 0 <= s < |now| && was[s].Some? && Stopped(now[s]) ==>
          exists i :: 0 <= i < |report| && report[i].slot == s)
  }

  /** Slots below this one belong to the first `k` steps. */
  function Bound(steps: seq<SlotStep>, k: nat): nat
    requires k <= |steps|
  {
    if k == 0 then 0 else steps[k - 1].slot + 1
  }

  /** Halfway through a command: its first `k` steps are retired. */
  ghost predicate Midway<S>(
      d: Device<S>, flying: Limits, steps: seq<SlotStep>, us: nat, was: seq<Option<ResidentJob>>,
      now: seq<Option<ResidentJob>>, outputs: seq<S>, report: seq<Checkpoint>, k: nat)
  {
    && k <= |steps| && |was| == |now| == |outputs| && NamesLive(d, flying, steps, was)
    && var bound := Bound(steps, k);
       && (forall s :: 0 <= s < |now| && (bound <= s || was[s].None?) ==> now[s] == was[s])
       && (forall s :: 0 <= s < |now| && s < bound && was[s].Some? ==> Moved(d, s, was[s], now[s], flying))
       && (forall l :: 0 <= l < k ==>
             Charged(was[steps[l].slot], now[steps[l].slot], DeviceTimeShare(us, |steps|, l)))
       && ReportedBelow(d, bound, was, now, outputs, report)
  }

  /** The report is of the slots below `bound` that stopped, in order. */
  ghost predicate ReportedBelow<S>(
      d: Device<S>, bound: nat, was: seq<Option<ResidentJob>>, now: seq<Option<ResidentJob>>, outputs: seq<S>,
      report: seq<Checkpoint>)
    requires |was| == |now| == |outputs|
  {
    && (forall i :: 0 <= i < |report| ==>
          report[i].slot < |now| && report[i].slot < bound
          && Reported(d, report[i], was[report[i].slot], now[report[i].slot], outputs[report[i].slot]))
    && (forall i, j :: 0 <= i < j < |report| ==> report[i].slot < report[j].slot)
    && (forall s :: 0 <= s < |now| && s < bound && was[s].Some? && Stopped(now[s]) ==>
          exists i :: 0 <= i < |report| && report[i].slot == s)
  }

  lemma ReportedMore<S>(
      d: Device<S>, bound: nat, slot: nat, was: seq<Option<ResidentJob>>,
      before: seq<Option<ResidentJob>>, now: seq<Option<ResidentJob>>, shown: seq<S>, outputs: seq<S>,
      report: seq<Checkpoint>, more: Option<Checkpoint>)
    requires |was| == |now| == |outputs| == |before| == |shown| && bound <= slot < |now|
    requires ReportedBelow(d, bound, was, before, shown, report)
    requires forall s :: 0 <= s < |now| && s != slot ==> now[s] == before[s] && outputs[s] == shown[s]
    requires forall s :: bound <= s < slot ==> was[s].None?
    requires more.Some? <==> Stopped(now[slot])
    requires more.Some? ==> more.value.slot == slot && Reported(d, more.value, was[slot], now[slot], outputs[slot])
    ensures ReportedBelow(d, slot + 1, was, now, outputs, report + (if more.Some? then [more.value] else []))
  {
    hide Reported, Stopped;
    var longer := report + (if more.Some? then [more.value] else []);
    forall s | 0 <= s < slot + 1 && was[s].Some? && Stopped(now[s])
      ensures exists i :: 0 <= i < |longer| && longer[i].slot == s
    {
      if s == slot {
        assert longer[|report|].slot == s;
      } else {
        var i :| 0 <= i < |report| && report[i].slot == s;
        assert longer[i].slot == s;
      }
    }
  }

  lemma MidwayStart<S>(
      d: Device<S>, flying: Limits, steps: seq<SlotStep>, us: nat, was: seq<Option<ResidentJob>>, outputs: seq<S>)
    requires |was| == |outputs| && Steppable(was) && steps == Issued(d, was, flying)
    ensures Midway(d, flying, steps, us, was, was, outputs, [], 0)
  {
    IssuedNames(d, was, flying);
  }

  lemma MidwayUntouched<S>(
      d: Device<S>, flying: Limits, steps: seq<SlotStep>, us: nat, was: seq<Option<ResidentJob>>,
      now: seq<Option<ResidentJob>>, outputs: seq<S>, report: seq<Checkpoint>, k: nat)
    requires Midway(d, flying, steps, us, was, now, outputs, report, k) && k < |steps|
    ensures steps[k].slot < |now| && now[steps[k].slot] == was[steps[k].slot] && now[steps[k].slot].Some?
    ensures var r := now[steps[k].slot].value; r.Ok() && !r.Done() && steps[k] == StepOf(d, r, steps[k].slot, flying)
  {
  }

  /** Between a step's slot and those before it no slot is live. */
  lemma BetweenSteps<S>(d: Device<S>, flying: Limits, steps: seq<SlotStep>, was: seq<Option<ResidentJob>>, k: nat)
    requires NamesLive(d, flying, steps, was) && k < |steps|
    ensures Bound(steps, k) <= steps[k].slot < |was| && was[steps[k].slot].Some?
    ensures forall s :: Bound(steps, k) <= s < steps[k].slot ==> was[s].None?
    ensures forall l :: 0 <= l < k ==> steps[l].slot < Bound(steps, k)
  {
    hide StepOf, Steppable;
    assert forall l :: 0 <= l < |steps| ==> steps[l].slot < Bound(steps, k) || steps[l].slot >= steps[k].slot;
  }

  lemma MidwayStep<S>(
      d: Device<S>, flying: Limits, steps: seq<SlotStep>, us: nat, was: seq<Option<ResidentJob>>,
      before: seq<Option<ResidentJob>>, now: seq<Option<ResidentJob>>, shown: seq<S>, outputs: seq<S>,
      report: seq<Checkpoint>, k: nat, more: Option<Checkpoint>)
    requires Midway(d, flying, steps, us, was, before, shown, report, k) && k < |steps|
    requires |now| == |outputs| == |before|
    requires forall s :: 0 <= s < |now| && s != steps[k].slot ==> now[s] == before[s] && outputs[s] == shown[s]
    requires steps[k].slot < |now| && Moved(d, steps[k].slot, was[steps[k].slot], now[steps[k].slot], flying)
    requires Charged(was[steps[k].slot], now[steps[k].slot], DeviceTimeShare(us, |steps|, k))
    requires more.Some? <==> Stopped(now[steps[k].slot])
    requires more.Some? ==> more.value.slot == steps[k].slot
    requires more.Some? ==>
               Reported(d, more.value, was[steps[k].slot], now[steps[k].slot], outputs[steps[k].slot])
    ensures Midway(d, flying, steps, us, was, now, outputs,
                   report + (if more.Some? then [more.value] else []), k + 1)
  {
    hide Moved, Charged, Reported, Stopped, DeviceTimeShare, ReportedBelow, NamesLive;
    BetweenSteps(d, flying, steps, was, k);
    ReportedMore(d, Bound(steps, k), steps[k].slot, was, before, now, shown, outputs, report, more);
  }

  lemma MidwayEnd<S>(
      d: Device<S>, flying: Limits, steps: seq<SlotStep>, us: nat, was: seq<Option<ResidentJob>>,
      now: seq<Option<ResidentJob>>, outputs: seq<S>, report: seq<Checkpoint>)
    requires Midway(d, flying, steps, us, was, now, outputs, report, |steps|)
    ensures AllMoved(d, flying, steps, us, was, now) && AllReported(d, was, now, outputs, report)
  {
    hide Moved, Charged, Reported, Stopped, StepOf, Steppable;
    forall s | 0 <= s < |now| && was[s].Some?
      ensures s < Bound(steps, |steps|)
    {
      var l :| 0 <= l < |steps| && steps[l].slot == s;
      assert l == |steps| - 1 || steps[l].slot < steps[|steps| - 1].slot;
    }
  }

  method FirstEmpty(slots: seq<Option<ResidentJob>>) returns (slot: nat)
    ensures slot <= |slots| && (forall s :: 0 <= s < slot ==> slots[s].Some?)
    ensures slot < |slots| ==> slots[slot].None?
  {
    slot := 0;
    while slot < |slots| && slots[slot].Some?
      invariant slot <= |slots|
      invariant forall s :: 0 <= s < slot ==> slots[s].Some?
    {
      slot := slot + 1;
    }
  }

  predicate AnyDone(slots: seq<Option<ResidentJob>>) {
    exists s :: 0 <= s < |slots| && slots[s].Some? && slots[s].value.Done()
  }

  /** A command's steps, each of a live slot, are as long as its two limits let
      them be. */
  ghost predicate AllStepUpTo(slots: seq<Option<ResidentJob>>, steps: seq<SlotStep>, slice: nat, deepSlice: nat) {
    forall k :: 0 <= k < |steps| ==>
      && steps[k].slot < |slots| && slots[steps[k].slot].Some?
      && var r := slots[steps[k].slot].value; r.Ok() && !r.Done() && StepsUpTo(r, steps[k], slice, deepSlice)
  }

  lemma IssuedLengths<S>(d: Device<S>, slots: seq<Option<ResidentJob>>, limits: Limits)
    requires Steppable(slots) && limits.Positive()
    ensures AllStepUpTo(slots, Issued(d, slots, limits), limits.slice, limits.deepSlice)
  {
    hide StepOf, Issued, StepsUpTo;
    var steps := Issued(d, slots, limits);
    forall k: nat | k < |steps|
      ensures steps[k].slot < |slots| && slots[steps[k].slot].Some?
      ensures var r := slots[steps[k].slot].value;
              r.Ok() && !r.Done() && StepsUpTo(r, steps[k], limits.slice, limits.deepSlice)
    {
      IssuedStep(d, slots, limits, k);
      StepLength(d, slots[steps[k].slot].value, steps[k].slot, limits);
    }
  }

  /** Build one command's steps; a job past its last checkpoint refuses it. */
  method IssueSteps<S>(d: Device<S>, slots: seq<Option<ResidentJob>>, limits: Limits)
    returns (issued: bool, steps: seq<SlotStep>)
    requires forall s :: 0 <= s < |slots| && slots[s].Some? ==> slots[s].value.Ok()
    ensures issued <==> !AnyDone(slots)
    ensures issued ==> Steppable(slots) && steps == Issued(d, slots, limits)
    ensures issued && limits.Positive() ==> AllStepUpTo(slots, steps, limits.slice, limits.deepSlice)
  {
    hide StepOf, AllStepUpTo;
    steps := [];
    var s := 0;
    while s < |slots|
      invariant s <= |slots|
      invariant Steppable(slots[..s]) && steps == Issued(d, slots[..s], limits)
    {
      if slots[s].Some? {
        if slots[s].value.Done() {
          return false, steps;
        }
        steps := steps + [StepOf(d, slots[s].value, s, limits)];
      }
      assert slots[..s + 1][..s] == slots[..s];
      s := s + 1;
    }
    assert slots[..s] == slots;
    issued := true;
    if limits.Positive() {
      IssuedLengths(d, slots, limits);
    }
  }

  /** Execute one step on its slot's own memory, then do the host's bookkeeping. */
  method RetireStep<S(0)>(
      d: Device<S>, step: SlotStep, share: nat, ghost flying: Limits, r: ResidentJob, ghost held: Option<BetaTable>,
      coefficients: Coefficients, region: seq<real>, stored: S, shown: S, ghost garbage: S, ghost limits: seq<Limits>)
    returns (now: ResidentJob, state: S, output: S, report: Option<Checkpoint>)
    requires r.Ok() && !r.Done() && flying.Positive() && step == StepOf(d, r, step.slot, flying)
    requires Holds(held, region)
    requires Stands(d, step.slot, Some(r), held, coefficients, stored, shown, garbage, limits)
    ensures Stands(d, step.slot, Some(now), held, coefficients, state, output, garbage, limits + [flying])
    ensures Moved(d, step.slot, Some(r), Some(now), flying)
    ensures Charged(Some(r), Some(now), share)
    ensures report.Some? <==> Stopped(Some(now))
    ensures report.Some? ==> report.value.slot == step.slot
    ensures report.Some? ==> Reported(d, report.value, Some(r), Some(now), output)
  {
    hide StepOf, Execute, Stopped, Reported, RunJob, Faithful;
    var slot := step.slot;
    StepStands(d, slot, r, held, coefficients, region, stored, shown, garbage, limits, flying, share);
    StepReports(d, slot, r, flying, share, RunJob(d, r.job, slot, garbage, limits));
    ExecuteReadsPrefix(d, r.job, region, stored, step);
    // The device's side of the step.
    state := Execute(d, coefficients, region, stored, step);
    output := if step.flags.writeOutput then state else shown;
    // The host's side.
    now := Retire(r, step, share);
    report := None;
    if step.flags.writeOutput {
      var observe := step.flags.observe;
      report := Some(Checkpoint(slot, r.nextCheckpoint, !observe && now.nextCheckpoint == |now.job.checkpoints|,
                                d.best(coefficients, output), observe,
                                now.position - now.job.AnnealStart(r.nextCheckpoint)));
    }
  }

  /** Every slot's entry and memory stand where their own runs would stand. */
  ghost predicate AllStand<S>(
      d: Device<S>, slots: seq<Option<ResidentJob>>, held: seq<Option<BetaTable>>, coefficients: seq<Coefficients>,
      stored: seq<S>, outputs: seq<S>, garbage: seq<S>, limits: seq<seq<Limits>>)
  {
    && |slots| == |held| == |coefficients| == |stored| == |outputs| == |garbage| == |limits|
    && forall s :: 0 <= s < |slots| ==>
         Stands(d, s, slots[s], held[s], coefficients[s], stored[s], outputs[s], garbage[s], limits[s])
  }

  lemma AllStandOk<S>(
      d: Device<S>, slots: seq<Option<ResidentJob>>, held: seq<Option<BetaTable>>, coefficients: seq<Coefficients>,
      stored: seq<S>, outputs: seq<S>, garbage: seq<S>, limits: seq<seq<Limits>>)
    requires AllStand(d, slots, held, coefficients, stored, outputs, garbage, limits)
    ensures forall s :: 0 <= s < |slots| && slots[s].Some? ==>
              slots[s].value.Ok() && slots[s].value.position <= slots[s].value.job.Len()
              && held[s] == Some(slots[s].value.job.schedule)
              && coefficients[s] == slots[s].value.job.coefficients
  {
  }

  /** Retire a command's steps in order. */
  method RetireAll<S(0)>(
      d: Device<S>, ghost flying: Limits, steps: seq<SlotStep>, us: nat, was: seq<Option<ResidentJob>>,
      ghost held: seq<Option<BetaTable>>, coefficients: seq<Coefficients>, regions: seq<seq<real>>, memory: seq<S>,
      shown: seq<S>, ghost garbage: seq<S>, ghost taken: seq<seq<Limits>>)
    returns (slots: seq<Option<ResidentJob>>, stored: seq<S>, outputs: seq<S>, ghost limits: seq<seq<Limits>>,
             report: seq<Checkpoint>)
    requires flying.Positive() && Midway(d, flying, steps, us, was, was, shown, [], 0)
    requires AllStand(d, was, held, coefficients, memory, shown, garbage, taken)
    requires |regions| == |was| && forall s :: 0 <= s < |was| ==> Holds(held[s], regions[s])
    ensures AllStand(d, slots, held, coefficients, stored, outputs, garbage, limits)
    ensures AllMoved(d, flying, steps, us, was, slots) && AllReported(d, was, slots, outputs, report)
  {
    hide Stands, Holds, StepOf, Stopped, Reported, Moved, Charged, Midway, AllMoved, AllReported;
    slots, stored, outputs, limits, report := was, memory, shown, taken, [];
    var k := 0;
    while k < |steps|
      invariant k <= |steps|
      invariant Midway(d, flying, steps, us, was, slots, outputs, report, k)
      invariant AllStand(d, slots, held, coefficients, stored, outputs, garbage, limits)
    {
      MidwayUntouched(d, flying, steps, us, was, slots, outputs, report, k);
      var s := steps[k].slot;
      var now, state, output, more := RetireStep(
        d, steps[k], DeviceTimeShare(us, |steps|, k), flying, slots[s].value, held[s], coefficients[s], regions[s],
        stored[s], outputs[s], garbage[s], limits[s]);
      MidwayStep(d, flying, steps, us, was, slots, slots[s := Some(now)], outputs, outputs[s := output], report, k, more);
      slots, stored, outputs := slots[s := Some(now)], stored[s := state], outputs[s := output];
      limits := limits[s := limits[s] + [flying]];
      report := report + (if more.Some? then [more.value] else []);
      k := k + 1;
    }
    MidwayEnd(d, flying, steps, us, was, slots, outputs, report);
  }

  /** A job begun in one slot, its regions written. */
  lemma BegunStand<S>(
      d: Device<S>, slots: seq<Option<ResidentJob>>, held: seq<Option<BetaTable>>, coefficients: seq<Coefficients>,
      stored: seq<S>, outputs: seq<S>, garbage: seq<S>, limits: seq<seq<Limits>>, slot: nat, job: SlotJob)
    requires AllStand(d, slots, held, coefficients, stored, outputs, garbage, limits)
    requires slot < |slots| && job.Valid()
    requires |slots| == |held| == |coefficients| == |stored| == |outputs| == |garbage| == |limits|
    ensures AllStand(d, slots[slot := Some(Begin(job))], held[slot := Some(job.schedule)],
                     coefficients[slot := job.coefficients], stored, outputs, garbage[slot := stored[slot]], limits[slot := []])
  {
    BeginStands(d, job, slot, stored[slot], outputs[slot]);
    hide Stands;
  }

  /** Every slot's region is of one size and holds its table. */
  ghost predicate AllHold(held: seq<Option<BetaTable>>, regions: seq<seq<real>>, stride: nat) {
    |held| == |regions| && forall s :: 0 <= s < |held| ==> Holds(held[s], regions[s]) && |regions[s]| == stride
  }

  lemma HoldsAt(held: seq<Option<BetaTable>>, regions: seq<seq<real>>, stride: nat, slot: nat)
    requires AllHold(held, regions, stride) && slot < |held|
    ensures |regions| == |held| && Holds(held[slot], regions[slot]) && |regions[slot]| == stride
  {
    hide Holds;
  }

  lemma HoldsSet(held: seq<Option<BetaTable>>, regions: seq<seq<real>>, stride: nat, slot: nat, table: BetaTable, region: seq<real>)
    requires AllHold(held, regions, stride) && slot < |held| == |regions| && Holds(Some(table), region) && |region| == stride
    ensures AllHold(held[slot := Some(table)], regions[slot := region], stride)
  {
    hide Holds;
  }

  lemma WrittenHolds(table: BetaTable, region: seq<real>)
    requires |table.betas| <= |region|
    ensures var now := table.betas + region[|table.betas|..];
            Holds(Some(table), now) && |now| == |region|
  {
  }

  predicate AnyEmpty(slots: seq<Option<ResidentJob>>) {
    exists s: nat :: s < |slots| && slots[s].None?
  }

  /** The job starts in the first empty slot, and no other slot changes. */
  predicate StartsIn(was: seq<Option<ResidentJob>>, now: seq<Option<ResidentJob>>, slot: nat, job: SlotJob) {
    && slot < |was| && was[slot].None? && (forall s :: 0 <= s < slot ==> was[s].Some?)
    && now == was[slot := Some(Begin(job))]
  }

  lemma FirstStarts(slots: seq<Option<ResidentJob>>, slot: nat, job: SlotJob)
    requires slot <= |slots| && (forall s :: 0 <= s < slot ==> slots[s].Some?) && (slot < |slots| ==> slots[slot].None?)
    ensures AnyEmpty(slots) <==> slot < |slots|
    ensures slot < |slots| ==> StartsIn(slots, slots[slot := Some(Begin(job))], slot, job)
  {
  }

  // Storage sizes.

  /** The least multiple of `unit` that holds `n`, in units. */
  function Ceil(n: nat, unit: nat): nat
    requires unit > 0
  {
    (n + unit - 1) / unit
  }

  /** `Ceil` units hold `n`, and one less would not. */
  lemma CeilIs(n: nat, unit: nat)
    requires unit > 0
    ensures Ceil(n, unit) * unit >= n && (Ceil(n, unit) > 0 ==> (Ceil(n, unit) - 1) * unit < n)
  {
  }

  function Product(factors: seq<nat>): nat {
    if factors == [] then 1 else Product(factors[..|factors| - 1]) * factors[|factors| - 1]
  }

  /** What a pool is made for. */
  datatype Plan = Plan(nodes: nat, nnz: nat, numReads: nat, capacity: nat, stride: nat, threads: nat) {
    function Words(): nat { Ceil(numReads, MSA_LANES) }

    /** Bytes of each of a slot's regions, as factors. */
    function Regions(): seq<seq<nat>> {
      [[nnz], [stride, 4], [numReads, Ceil(nodes, 8)], [numReads, 4], [nodes], [Words(), nodes, 4], [Words(), threads, 4, 4],
       [STEP_BYTES]]
    }

    predicate Nonzero() { nodes > 0 && numReads > 0 && capacity > 0 && stride > 0 }

    /** Every buffer is within the kernel's 32-bit indices. */
    predicate Indexable() {
      forall i :: 0 <= i < |Regions()| ==> capacity * Product(Regions()[i]) <= I32_MAX
    }
  }

  /** Multiplies out a buffer's size, refusing it on overflow or past 32 bits. */
  method RegionBytes(capacity: nat, factors: seq<nat>) returns (bytes: Option<nat>)
    requires |factors| > 1 ==> forall i :: 0 <= i < |factors| ==> factors[i] > 0
    ensures bytes == if capacity * Product(factors) <= I32_MAX then Some(capacity * Product(factors)) else None
  {
    var n := capacity;
    for k := 0 to |factors|
      invariant n == capacity * Product(factors[..k]) <= Maximum(capacity)
    {
      assert factors[..k + 1][..k] == factors[..k];
      var more := n * factors[k];
      Regroup(capacity, Product(factors[..k]), factors[k]);
      if more > USIZE_MAX {
        ProductGrows(factors, k + 1);
        Scaled(capacity, Product(factors[..k + 1]), Product(factors));
        return None;
      }
      n := more;
    }
    assert factors[..|factors|] == factors;
    return if n <= I32_MAX then Some(n) else None;
  }

  function Maximum(capacity: nat): nat {
    if capacity <= USIZE_MAX then USIZE_MAX else capacity
  }

  lemma Regroup(a: nat, b: nat, c: nat)
    ensures a * b * c == a * (b * c)
  {
  }

  lemma Scaled(a: nat, b: nat, c: nat)
    requires b <= c
    ensures a * b <= a * c
  {
  }

  /** Positive factors never take a product down. */
  lemma {:induction false} ProductGrows(factors: seq<nat>, k: nat)
    requires 0 < k <= |factors| && (|factors| > 1 ==> forall i :: 0 <= i < |factors| ==> factors[i] > 0)
    ensures Product(factors[..k]) <= Product(factors)
  {
    if k == |factors| {
      assert factors[..k] == factors;
    } else {
      var shorter := factors[..|factors| - 1];
      assert shorter[..k] == factors[..k];
      ProductGrows(shorter, k);
      Scaled(Product(shorter), 1, factors[|factors| - 1]);
    }
  }

  /** In an indexable buffer every position of every slot's region has a 32-bit
      offset. */
  lemma OffsetFits(capacity: nat, region: nat, slot: nat, offset: nat)
    requires capacity * region <= I32_MAX && slot < capacity && offset < region
    ensures slot * region + offset < I32_MAX
  {
    Scaled(region, slot + 1, capacity);
  }

  /** An edge list in shared storage. */
  class EdgeList {
    const edges: seq<(nat, nat)>

    constructor (edges: seq<(nat, nat)>)
      ensures this.edges == edges
    {
      this.edges := edges;
    }
  }

  /** Inputs prepared against an edge list of so many nodes. */
  datatype Inputs = Inputs(nodes: nat, edges: EdgeList)

  /** A new pool, or why not: a dimension is zero, the state does not fit the
      device's fast memory, or a buffer exceeds 32-bit indices. */
  method NewPool<S(0)>(
      device: Device<S>, plan: Plan, edges: seq<(nat, nat)>, fastBytes: nat, stepLimit: (nat, nat) -> nat, memory: seq<S>)
    returns (result: Result<SlotPool<S>, Fault>)
    requires |memory| == plan.capacity && plan.threads > 0
    requires forall groups: nat, slice: nat :: 1 <= stepLimit(groups, slice) <= Max(1, Min(slice, MAX_SWEEPS))
    ensures result.Ok? <==> plan.Nonzero() && 16 * Ceil(4 * plan.nodes, 16) + MSA_STATIC_TG_BYTES <= fastBytes && plan.Indexable()
    ensures result.Err? ==> result.error == TooLarge
    ensures result.Ok? ==>
              var pool := result.value;
              && fresh(pool) && pool.Valid() && pool.Idle() && pool.capacity == plan.capacity && pool.stride == plan.stride
              && pool.nodes == plan.nodes && pool.edges == edges && pool.numReads == plan.numReads
              && forall s: nat :: !pool.Live(s)
  {
    if !plan.Nonzero() || 16 * Ceil(4 * plan.nodes, 16) + MSA_STATIC_TG_BYTES > fastBytes {
      return Err(TooLarge);
    }
    var regions := plan.Regions();
    assert plan.Words() > 0 && Ceil(plan.nodes, 8) > 0;
    for i := 0 to |regions|
      invariant forall k :: 0 <= k < i ==> plan.capacity * Product(regions[k]) <= I32_MAX
    {
      var bytes := RegionBytes(plan.capacity, regions[i]);
      if bytes.None? {
        return Err(TooLarge);
      }
    }
    var pool := new SlotPool<S>(device, plan, edges, stepLimit, memory);
    result := Ok(pool);
  }

  class SlotPool<S(0)> {
    const device: Device<S>
    /** The compiled graph's nodes and edges. */
    const nodes: nat
    const edges: seq<(nat, nat)>
    const numReads: nat
    const capacity: nat
    /** Entries in each slot's schedule region. */
    const stride: nat
    /** The dispatch estimate: the sweeps a command of so many groups may run. */
    const stepLimit: (nat, nat) -> nat

    var slots: seq<Option<ResidentJob>>
    /** The table each slot's schedule region holds. */
    var held: seq<Option<BetaTable>>
    var steps: seq<SlotStep>
    var inFlight: bool
    var faulted: bool
    /** The edge storage last compared with the pool's own and found equal. */
    var verified: EdgeList?

    // Device memory, one region per slot.
    var coefficients: seq<Coefficients>
    var regions: seq<seq<real>>
    var stored: seq<S>
    var outputs: seq<S>

    // How each resident job got where it is: its storage before admission and
    // the limits of every step retired since.
    ghost var garbage: seq<S>
    ghost var limits: seq<seq<Limits>>
    /** The limits of the command in flight. */
    ghost var flying: Limits

    ghost predicate Shape()
      reads this
    {
      && capacity > 0
      && |slots| == |held| == |coefficients| == |regions| == |stored| == |outputs| == capacity
      && |garbage| == |limits| == capacity
      && (forall groups: nat, slice: nat :: 1 <= stepLimit(groups, slice) <= Max(1, Min(slice, MAX_SWEEPS)))
    }

    ghost predicate Valid()
      reads this
    {
      && Shape()
      && (verified != null ==> verified.edges == edges)
      && AllHold(held, regions, stride)
      && AllStand(device, slots, held, coefficients, stored, outputs, garbage, limits)
      && (inFlight ==> Steppable(slots) && flying.Positive() && steps == Issued(device, slots, flying))
    }

    /** The idle test every host-side operation starts with. */
    predicate Idle()
      reads this
    {
      !inFlight && !faulted
    }

    predicate Live(s: nat)
      reads this
    {
      s < |slots| && slots[s].Some?
    }

    constructor (device: Device<S>, plan: Plan, edges: seq<(nat, nat)>, stepLimit: (nat, nat) -> nat, memory: seq<S>)
      requires plan.capacity > 0 && |memory| == plan.capacity
      requires forall groups: nat, slice: nat :: 1 <= stepLimit(groups, slice) <= Max(1, Min(slice, MAX_SWEEPS))
      ensures Valid() && Idle()
      ensures this.device == device && this.capacity == plan.capacity && this.stride == plan.stride
      ensures this.nodes == plan.nodes && this.edges == edges && this.numReads == plan.numReads
      ensures slots == seq(capacity, _ => None)
    {
      this.device, this.capacity, this.numReads, this.stride, this.stepLimit :=
        device, plan.capacity, plan.numReads, plan.stride, stepLimit;
      this.nodes, this.edges, verified := plan.nodes, edges, null;
      slots, held := seq(plan.capacity, _ => None), seq(plan.capacity, _ => None);
      coefficients := seq(plan.capacity, _ => Coefficients([], []));
      regions := seq(plan.capacity, _ => seq(plan.stride, _ => 0.0));
      stored, outputs, garbage := memory, memory, memory;
      limits := seq(plan.capacity, _ => []);
      steps, inFlight, faulted := [], false, false;
    }

    /** Whether prepared inputs are for the pool's own graph. */
    predicate Suits(inputs: Inputs, count: nat) {
      inputs.nodes == nodes && count == numReads && inputs.edges.edges == edges
    }

    /**
     * Decides that, comparing edge lists only when this storage is not the one
     * verified last.
     */
    method MatchesPrepared(inputs: Inputs, count: nat) returns (same: bool)
      requires Valid()
      modifies this`verified
      ensures Valid()
      ensures same <==> Suits(inputs, count)
      ensures verified == if same then inputs.edges else old(verified)
    {
      if nodes != inputs.nodes || numReads != count {
        return false;
      }
      if verified == inputs.edges {
        return true;
      }
      same := edges == inputs.edges.edges;
      if same {
        verified := inputs.edges;
      }
    }

    /**
     * Place a prepared job in the first empty slot. `size` is the node and edge
     * count of its graph.
     */
    method AdmitPrepared(job: SlotJob, size: (nat, nat), inputs: Inputs) returns (result: Result<nat, Fault>)
      requires Valid() && job.Valid()
      modifies this
      ensures Valid()
      ensures result.Ok? <==> old(Idle()) && job.Len() <= stride && size == (nodes, |edges|) && Suits(inputs, numReads)
                              && AnyEmpty(old(slots))
      ensures result.Err? ==> slots == old(slots)
      ensures result.Ok? ==> StartsIn(old(slots), slots, result.value, job)
      ensures inFlight == old(inFlight) && faulted == old(faulted)
    {
      if !Idle() {
        return Err(Driver);
      }
      if job.Len() > stride {
        return Err(TooLarge);
      }
      if size != (inputs.nodes, |inputs.edges.edges|) {
        return Err(Driver);
      }
      hide Stands;
      var matches := MatchesPrepared(inputs, numReads);
      if !matches {
        return Err(Driver);
      }
      result := Upload(job);
    }

    method Upload(job: SlotJob) returns (result: Result<nat, Fault>)
      requires Valid() && Idle() && job.Valid() && job.Len() <= stride
      modifies this
      ensures Valid() && Idle()
      ensures result.Ok? <==> AnyEmpty(old(slots))
      ensures result.Err? ==> slots == old(slots)
      ensures result.Ok? ==> StartsIn(old(slots), slots, result.value, job)
    {
      hide Stands, AllStand, Holds, AllHold, Issued, Steppable, StartsIn, AnyEmpty;
      var slot := FirstEmpty(slots);
      FirstStarts(slots, slot, job);
      if slot == capacity {
        return Err(TooLarge);
      }
      WriteSlot(slot, job);
      result := Ok(slot);
    }

    /** Writes a job's data to an empty slot, the schedule only unless the slot
        holds that table already, and begins it. */
    method WriteSlot(slot: nat, job: SlotJob)
      requires Valid() && Idle() && job.Valid() && job.Len() <= stride && slot < capacity
      modifies this
      ensures Valid() && Idle() && slots == old(slots)[slot := Some(Begin(job))]
      ensures held == old(held)[slot := Some(job.schedule)] && coefficients == old(coefficients)[slot := job.coefficients]
      ensures old(held)[slot] == Some(job.schedule) ==> regions == old(regions)
    {
      hide Stands, AllStand, Holds, AllHold, Issued, Steppable, Begin;
      BegunStand(device, slots, held, coefficients, stored, outputs, garbage, limits, slot, job);
      HoldsAt(held, regions, stride, slot);
      var region := regions[slot];
      if held[slot] != Some(job.schedule) {
        WrittenHolds(job.schedule, region);
        region := job.schedule.betas + region[job.Len()..];
      }
      HoldsSet(held, regions, stride, slot, job.schedule, region);
      coefficients, regions := coefficients[slot := job.coefficients], regions[slot := region];
      held, slots := held[slot := Some(job.schedule)], slots[slot := Some(Begin(job))];
      garbage, limits := garbage[slot := stored[slot]], limits[slot := []];
    }

    method Release(slot: nat) returns (result: Result<(), Fault>)
      requires Valid()
      modifies this
      ensures Valid()
      ensures result.Ok? <==> old(Idle()) && old(Live(slot))
      ensures slots == if result.Ok? then old(slots)[slot := None] else old(slots)
      ensures inFlight == old(inFlight) && faulted == old(faulted)
      ensures outputs == old(outputs) && coefficients == old(coefficients)
    {
      if !Idle() || !Live(slot) {
        return Err(Driver);
      }
      slots := slots[slot := None];
      result := Ok(());
    }

    /**
     * Submit one step for every live job. A job in a fresh leg may advance up
     * to `deepSlice` sweeps, every other job up to `slice`.
     */
    method CommitStep(slice: nat, deepSlice: nat) returns (result: Result<bool, Fault>)
      requires Valid()
      modifies this
      ensures Valid()
      ensures slots == old(slots) && faulted == old(faulted) && outputs == old(outputs)
      ensures result == Ok(true) <==> inFlight && !old(inFlight)
      ensures old(inFlight) ==> inFlight
      ensures result == Ok(false) <==> old(Idle()) && LiveCount(slots) == 0
      ensures result == Ok(true) <==> old(Idle()) && LiveCount(slots) > 0 && slice > 0 && deepSlice > 0
                                      && !AnyDone(slots)
      ensures result == Ok(true) ==> 1 <= flying.slice <= Max(1, Min(slice, MAX_SWEEPS))
                                     && 1 <= flying.deepSlice <= Max(1, Min(deepSlice, MAX_SWEEPS))
      ensures result == Ok(true) ==>
                var groups := LiveCount(slots) * Ceil(numReads, MSA_LANES);
                AllStepUpTo(slots, steps, stepLimit(groups, slice), stepLimit(groups, deepSlice))
    {
      hide AllStepUpTo, Stands, Holds, AllStand, Issued, Steppable, Ceil, LiveCount, AnyDone;
      if !Idle() {
        return Err(Driver);
      }
      var live := LiveCount(slots);
      if live == 0 {
        return Ok(false);
      }
      if slice == 0 || deepSlice == 0 {
        return Err(Driver);
      }
      var words := Ceil(numReads, MSA_LANES);
      var bounds := Limits(stepLimit(live * words, slice), stepLimit(live * words, deepSlice));
      AllStandOk(device, slots, held, coefficients, stored, outputs, garbage, limits);
      var issued;
      issued, steps := IssueSteps(device, slots, bounds);
      if !issued {
        return Err(Driver);
      }
      flying, inFlight := bounds, true;
      result := Ok(true);
    }

    /** Execute and retire every step of a completed command, in order. */
    method Complete(us: nat) returns (checkpoints: seq<Checkpoint>)
      requires Valid() && inFlight
      modifies this
      ensures Valid() && !inFlight && faulted == old(faulted)
      ensures AllMoved(device, flying, steps, us, old(slots), slots)
      ensures AllReported(device, old(slots), slots, outputs, checkpoints)
      ensures held == old(held) && coefficients == old(coefficients) && steps == old(steps) && flying == old(flying)
    {
      hide Stands, Holds, Midway, AllMoved, AllReported, Issued;
      MidwayStart(device, flying, steps, us, slots, outputs);
      var jobs, memory, shown := slots, stored, outputs;
      ghost var taken;
      jobs, memory, shown, taken, checkpoints :=
        RetireAll(device, flying, steps, us, slots, held, coefficients, regions, stored, outputs, garbage, limits);
      slots, stored, outputs, limits, inFlight := jobs, memory, shown, taken, false;
    }

    /**
     * Retire the command in flight once the device is done with it, and report
     * the slots that wrote output.
     */
    method TakeCheckpoints(status: Status) returns (result: Result<seq<Checkpoint>, Fault>)
      requires Valid()
      modifies this
      ensures Valid()
      ensures !old(inFlight) ==> slots == old(slots) && !inFlight && faulted == old(faulted)
                                 && result == if old(faulted) then Err(Driver) else Ok([])
      ensures old(inFlight) && !status.Completed? ==> slots == old(slots) && result == Err(Driver)
      ensures old(inFlight) && status.Failed? ==> faulted && !inFlight
      ensures old(inFlight) && status.Pending? ==> inFlight && faulted == old(faulted)
      ensures old(inFlight) && status.Completed? ==>
                && result.Ok? && !inFlight && faulted == old(faulted)
                && AllMoved(device, flying, steps, status.deviceUs, old(slots), slots)
                && AllReported(device, old(slots), slots, outputs, result.value)
      ensures held == old(held) && coefficients == old(coefficients) && steps == old(steps) && flying == old(flying)
    {
      if !inFlight {
        return if faulted then Err(Driver) else Ok([]);
      }
      match status
      case Failed =>
        faulted, inFlight := true, false;
        return Err(Driver);
      case Pending =>
        return Err(Driver);
      case Completed(us) =>
        hide Stands, Holds, AllMoved, AllReported;
        var checkpoints := Complete(us);
        result := Ok(checkpoints);
    }

    /**
     * The first `count` reads of each requested slot's last readback, in request
     * order. Full readbacks of consecutive slots are copied at once. `take` cuts
     * a readback to its first reads; `audited` says whether the host agrees with
     * the device's energies.
     */
    method ReadsMany(request: seq<nat>, count: nat, take: (S, nat) -> S, audited: bool) returns (result: Result<seq<S>, Fault>)
      requires Valid() && forall output: S :: take(output, numReads) == output
      ensures result.Ok? <==> Idle() && count <= numReads && (audited || request == [])
                              && forall i :: 0 <= i < |request| ==> Live(request[i]) && slots[request[i]].value.hasOutput
      ensures result == Err(TooLarge) <==> Idle() && count > numReads
      ensures result.Ok? ==> |result.value| == |request|
                             && forall i :: 0 <= i < |request| ==> result.value[i] == take(outputs[request[i]], count)
    {
      hide Stands, Holds, AllStand, Issued, Steppable;
      if !Idle() {
        return Err(Driver);
      }
      if count > numReads {
        return Err(TooLarge);
      }
      for i := 0 to |request|
        invariant forall j :: 0 <= j < i ==> Live(request[j]) && slots[request[j]].value.hasOutput
      {
        if !Live(request[i]) || !slots[request[i]].value.hasOutput {
          return Err(Driver);
        }
      }
      var found := [];
      var first := 0;
      while first < |request|
        invariant |found| == first <= |request|
        invariant forall j :: 0 <= j < first ==> found[j] == take(outputs[request[j]], count)
      {
        var end := first + 1;
        while count == numReads && end < |request| && request[end] == request[end - 1] + 1
          invariant first < end <= |request| && (count < numReads ==> end == first + 1)
          invariant forall j :: first <= j < end ==> request[j] == request[first] + (j - first)
        {
          end := end + 1;
        }
        assert Live(request[first]) && Live(request[end - 1]);
        var run := outputs[request[first]..request[first] + (end - first)];
        found := found + if count == numReads then run else [take(run[0], count)];
        first := end;
      }
      result := if audited || request == [] then Ok(found) else Err(Driver);
    }
  }
}
