/**
 * The cascade controller (src/cascade.rs): stage plans shared by the tickets
 * admitted under them, and the checkpoint decisions made with them. A plan is
 * named by its place among all plans ever made, so tickets that share one name
 * one place. What cutoffs, miss rates and audit draws say is left open.
 */
module Cascade {
  import opened Schedules
  import opened Wrappers

  const KEPT_MAX: nat := 256
  const EPOCHS: nat := 0x1_0000_0000_0000_0000

  /** Stages in use: how many are positive. */
  function Configured(stages: seq<nat>): (n: nat)
    ensures n <= |stages|
  {
    if stages == [] then 0 else Configured(stages[..|stages| - 1]) + if stages[|stages| - 1] > 0 then 1 else 0
  }

  /** Per-stage state: observations per cutoff (one more than the stages, the
      last for the full budget), kept energies, audits counted, and whether a
      missing calibration was logged. */
  datatype Plan = Plan(
    settings: Settings, observed: seq<nat>, kept: seq<seq<int>>, audits: seq<nat>, unavailable: seq<bool>,
    auditing: bool)
  {
    function Count(): nat { Configured(settings.stages) }

    predicate Ok() {
      && |settings.gates| == MAX_STAGES
      && |observed| == Count() + 1 && |kept| == |audits| == |unavailable| == Count()
      && forall i :: 0 <= i < |kept| ==> |kept[i]| <= KEPT_MAX
    }
  }

  function NewPlan(settings: Settings): Plan {
    var n := Configured(settings.stages);
    Plan(settings, seq(n + 1, _ => 0), seq(n, _ => []), seq(n, _ => 0), seq(n, _ => false), false)
  }

  /** A new plan has seen nothing. */
  lemma NewPlanEmpty(settings: Settings)
    ensures var p := NewPlan(settings);
            && |p.observed| == p.Count() + 1 && |p.kept| == |p.audits| == |p.unavailable| == p.Count()
            && (forall i :: 0 <= i <= p.Count() ==> p.observed[i] == 0) && !p.auditing && p.settings == settings
            && forall i :: 0 <= i < p.Count() ==> p.kept[i] == [] && p.audits[i] == 0 && !p.unavailable[i]
  {
  }

  datatype Ticket = Ticket(
    gates: nat, stage: nat, audited: bool, topologyEpoch: nat, round: nat, finishSweeps: Option<nat>,
    plan: nat, finalSweeps: nat)

  /** What measurements say when a unit is judged: whether its best meets the
      adaptive cutoff, which transitions have a calibrated miss rate, and
      whether the audit draw picks it. */
  datatype Verdict = Verdict(meets: bool, rated: (nat, nat) -> bool, drawn: bool)

  datatype Control<T(==)> = Control(
    settings: Settings, plans: seq<Plan>, plan: nat, topology: Option<T>, topologyEpoch: nat,
    round: nat, range: Option<(int, int)>)
  {
    predicate Ok() {
      && settings.Valid()
      && plan < |plans| && forall p :: 0 <= p < |plans| ==> plans[p].Ok()
    }

    /** The ticket's stage indices stay inside its plan. */
    predicate Fits(t: Ticket) {
      t.plan < |plans| && t.stage <= t.gates <= plans[t.plan].Count()
    }

    /** A decision on the ticket indexes nothing past its plan's vectors. */
    predicate Reaches(t: Ticket) {
      && t.plan < |plans| && t.stage < t.gates <= MAX_STAGES
      && t.stage <= plans[t.plan].Count() && (t.stage == plans[t.plan].Count() ==> plans[t.plan].settings.openGates)
    }
  }

  function NewControl<T(==)>(settings: Settings): Control<T> {
    Control(settings, [NewPlan(settings)], 0, None, 0, 0, None)
  }

  // Settings.

  /** A settings change: a new plan when stages or keep denominators change, and
      the current plan's audit and open gates updated in place. */
  function Refreshed<T(==)>(c: Control<T>, settings: Settings): Control<T>
    requires c.plan < |c.plans|
  {
    var rebuild := settings.stages != c.settings.stages || settings.keep != c.settings.keep
                   || settings.keepMin != c.settings.keepMin || settings.keepMax != c.settings.keepMax;
    var plans := if rebuild then c.plans + [NewPlan(settings)] else c.plans;
    var at := if rebuild then |c.plans| else c.plan;
    var p := plans[at];
    c.(settings := settings, plan := at,
       plans := plans[at := p.(settings := p.settings.(audit := settings.audit, openGates := settings.openGates))])
  }

  // Admission.

  /** What a prepared schedule remembers of how it was laid out. */
  datatype Prepared = Prepared(settings: Settings, gated: bool, screen: bool, sweeps: nat) {
    function StagesUsed(): Stages {
      if screen then settings.Effective(gated).stages else seq(MAX_STAGES, _ => 0)
    }

    /** Checkpoints of the schedule: the stages below the budget, and its end. */
    function Checkpoints(): nat { StagesBelow(StagesUsed(), sweeps) + 1 }
  }

  lemma CheckpointsAreLaidOut(p: Prepared, ladder: Ladder, key: ScheduleKey)
    requires LadderOk(ladder) && StagesOk(key.stages) && key.stages == p.StagesUsed() && key.sweeps == p.sweeps
    ensures |SegmentsOf(ladder, key).checkpoints| == p.Checkpoints()
  {
    SegmentsSplit(ladder, key);
  }

  /** Laid out again when the configured stages changed since preparation. */
  function Current<T(==)>(c: Control<T>, p: Prepared): Prepared {
    if p.settings.stages != c.settings.stages then p.(settings := c.settings) else p
  }

  /** The gate plan a ticket of `p` runs under, made anew for a new topology or
      for other stages or gates than the current plan's. */
  function Planned<T(==)>(c: Control<T>, p: Prepared, topology: T): Control<T>
    requires c.plan < |c.plans|
  {
    var wanted := c.settings.Effective(p.gated);
    var current := c.plans[c.plan].settings;
    if p.Checkpoints() <= 1 then c
    else if c.topology != Some(topology) then
      c.(plans := c.plans + [NewPlan(wanted).(auditing := true)], plan := |c.plans|,
         topology := Some(topology), topologyEpoch := (c.topologyEpoch + 1) % EPOCHS)
    else if current.stages != wanted.stages || current.gates != wanted.gates then
      c.(plans := c.plans + [NewPlan(wanted).(auditing := true)], plan := |c.plans|)
    else c.(plans := c.plans[c.plan := c.plans[c.plan].(auditing := true)])
  }

  function Admitted<T(==)>(c: Control<T>, p: Prepared, topology: T): (Control<T>, Ticket)
    requires c.plan < |c.plans|
  {
    var now := Current(c, p);
    var planned := Planned(c, now, topology);
    (planned,
     Ticket(now.Checkpoints() - 1, 0, false, planned.topologyEpoch, c.round, None, planned.plan, now.sweeps))
  }

  lemma NewPlanOk(settings: Settings)
    requires |settings.gates| == MAX_STAGES
    ensures NewPlan(settings).Ok() && NewPlan(settings).(auditing := true).Ok() && NewPlan(settings).settings == settings
  {
  }

  lemma RefreshedOk<T>(c: Control<T>, settings: Settings, t: Ticket)
    requires c.Ok() && settings.Valid()
    ensures Refreshed(c, settings).Ok()
    ensures c.Fits(t) ==> Refreshed(c, settings).Fits(t)
  {
    NewPlanOk(settings);
  }

  lemma PlannedOk<T>(c: Control<T>, p: Prepared, topology: T, t: Ticket)
    requires c.Ok()
    ensures Planned(c, p, topology).Ok() && |Planned(c, p, topology).plans| >= |c.plans|
    ensures c.Fits(t) ==> Planned(c, p, topology).Fits(t)
    ensures p.Checkpoints() > 1 ==>
              Planned(c, p, topology).plans[Planned(c, p, topology).plan].settings.stages == c.settings.Effective(p.gated).stages
  {
    hide NewPlan, Configured, StagesBelow, Plan.Ok, Plan.Count, Settings.Valid, Settings.Effective;
    EffectiveGates(c.settings, p.gated);
    NewPlanOk(c.settings.Effective(p.gated));
    AuditingOk(c.plans[c.plan]);
  }

  lemma EffectiveGates(settings: Settings, gated: bool)
    requires settings.Valid()
    ensures |settings.Effective(gated).gates| == MAX_STAGES
  {
  }

  lemma AuditingOk(p: Plan)
    requires p.Ok()
    ensures p.(auditing := true).Ok() && p.(auditing := true).Count() == p.Count()
  {
    hide Configured;
  }

  lemma {:induction false} BelowConfigured(stages: seq<nat>, sweeps: nat)
    ensures StagesBelow(stages, sweeps) <= Configured(stages)
  {
    var n := StagesBelow(stages, sweeps);
    PositivePrefix(stages, n);
  }

  lemma {:induction false} PositivePrefix(stages: seq<nat>, n: nat)
    requires n <= |stages| && forall i :: 0 <= i < n ==> stages[i] > 0
    ensures n <= Configured(stages)
  {
    if |stages| > 0 && n > 0 {
      PositivePrefix(stages[..|stages| - 1], if n == |stages| then n - 1 else n);
    }
  }

  /** Whether open gates were switched between preparing and admitting a unit
      that the chain plan gates. The rebuild test does not notice: it compares
      stages only. */
  predicate Toggled<T(==)>(c: Control<T>, p: Prepared) {
    p.screen && p.gated && Current(c, p).settings.openGates != c.settings.openGates
  }

  /** An admitted ticket fits its plan exactly when gates were not switched under
      it, or the switch left it no more gates than the plan has stages. */
  lemma AdmittedFits<T>(c: Control<T>, p: Prepared, topology: T)
    requires c.Ok() && p.settings.Valid()
    ensures var (now, t) := Admitted(c, p, topology);
            && now.Ok()
            && (now.Fits(t) <==>
                  !Toggled(c, p)
                  || StagesBelow(Current(c, p).StagesUsed(), p.sweeps) <= Configured(c.settings.Effective(true).stages))
  {
    var cur := Current(c, p);
    var (now, t) := Admitted(c, p, topology);
    PlannedOk(c, cur, topology, t);
    BelowConfigured(cur.StagesUsed(), p.sweeps);
    hide StagesBelow, Configured;
    var used, wanted := cur.StagesUsed(), c.settings.Effective(cur.gated).stages;
    if !Toggled(c, p) && cur.screen {
      assert used == wanted;
    }
  }

  /** The same in closed form, either way. Prepared under the chain plan and
      admitted with open gates, a unit keeps one gate per chain stage below its
      budget and has the configured stages; the other way round it keeps one per
      configured stage below its budget and has the fifteen chain stages. */
  lemma ToggledEitherWay<T>(c: Control<T>, p: Prepared, topology: T)
    requires c.Ok() && p.settings.Valid() && Toggled(c, p)
    ensures p.settings.stages == c.settings.stages
    ensures var (now, t) := Admitted(c, p, topology);
            var chain := StageArray(CHAIN_STAGES);
            if c.settings.openGates then
              && t.gates == StagesBelow(chain, p.sweeps)
              && (now.Fits(t) <==> StagesBelow(chain, p.sweeps) <= Configured(c.settings.stages))
            else
              && t.gates == StagesBelow(c.settings.stages, p.sweeps)
              && (now.Fits(t) <==> StagesBelow(c.settings.stages, p.sweeps) <= 15)
  {
    AdmittedFits(c, p, topology);
    ChainCount();
  }

  lemma ChainCount()
    ensures Configured(StageArray(CHAIN_STAGES)) == 15
  {
    var s := StageArray(CHAIN_STAGES);
    BelowConfigured(s, CHAIN_FULL_SWEEPS);
    ChainStages();
    ZeroTail(s, 15);
  }

  /** Gates switched open after a chain-gated unit was prepared: it holds fifteen
      gates on a plan of two stages. */
  lemma ToggledOverruns()
    ensures exists c: Control<int>, p: Prepared ::
              c.Ok() && p.settings.Valid() && Toggled(c, p)
              && var (now, t) := Admitted(c, p, 0);
                 t.gates == 15 && now.plans[t.plan].Count() == 2 && !now.Fits(t) && Rides(now, t) && t.stage == 0
  {
    var open := DEFAULT_SETTINGS.(openGates := true);
    var c: Control<int> := NewControl(open);
    var p := Prepared(DEFAULT_SETTINGS, true, true, CHAIN_FULL_SWEEPS);
    SettingsStayValid([], true);
    assert MergeAll(DEFAULT_SETTINGS, []) == DEFAULT_SETTINGS;
    assert open.Valid();
    NewPlanOk(open);
    ChainStages();
    DefaultStages();
    AdmittedFits(c, p, 0);
    PlannedOk(c, p, 0, Ticket(0, 0, false, 0, 0, None, 0, 0));
    var (now, t) := Admitted(c, p, 0);
    assert t.gates == 15 && now.plans[t.plan].Count() == 2;
  }

  lemma ChainStages()
    ensures StagesBelow(StageArray(CHAIN_STAGES), CHAIN_FULL_SWEEPS) == 15
  {
    var s := StageArray(CHAIN_STAGES);
    assert |s| == 16 && forall i :: 0 <= i < 15 ==> 0 < s[i] < CHAIN_FULL_SWEEPS;
    var n := StagesBelow(s, CHAIN_FULL_SWEEPS);
    assert s[15] == 0;
  }

  lemma DefaultStages()
    ensures Configured(StageArray(DEFAULT_STAGES)) == 2
  {
    var s := StageArray(DEFAULT_STAGES);
    ZeroTail(s, 2);
    assert s[..2] == [32, 256] && [32, 256][..1] == [32] && [32][..0] == [];
    assert Configured([32]) == 1 && Configured([32, 256]) == 2;
  }

  lemma {:induction false} ZeroTail(stages: seq<nat>, n: nat)
    requires n <= |stages| && forall i :: n <= i < |stages| ==> stages[i] == 0
    ensures Configured(stages) == Configured(stages[..n])
  {
    if n < |stages| {
      ZeroTail(stages[..|stages| - 1], n);
      assert stages[..|stages| - 1][..n] == stages[..n];
    } else {
      assert stages[..n] == stages;
    }
  }

  // Checkpoints.

  /** Whether audits of `stage` have a calibrated miss rate, noting once that
      they do not. */
  function AuditSupported(p: Plan, t: Ticket, stage: nat, rated: (nat, nat) -> bool): (r: (Plan, bool))
    requires p.Ok() && stage < p.Count() && t.gates <= MAX_STAGES
    ensures r.0.Ok() && r.0.settings == p.settings
  {
    var end := if stage + 1 < t.gates then p.settings.stages[stage + 1] else t.finalSweeps;
    if rated(p.settings.stages[stage], end) then (p, true)
    else (p.(unavailable := p.unavailable[stage := true]), false)
  }

  function KeptPush(kept: seq<int>, best: int): (r: seq<int>)
    requires |kept| <= KEPT_MAX
    ensures |r| <= KEPT_MAX && r != [] && r[|r| - 1] == best
  {
    (if |kept| == KEPT_MAX then kept[1..] else kept) + [best]
  }

  /** What arriving at a checkpoint says about the transition just made: an
      audited unit is compared with those kept, any other joins them. */
  function ObserveTransition(p: Plan, t: Ticket, best: int, rated: (nat, nat) -> bool): (r: Plan)
    requires p.Ok() && t.stage <= p.Count() && t.gates <= MAX_STAGES
    ensures r.Ok() && r.settings == p.settings
  {
    if t.stage == 0 then p
    else
      var previous := t.stage - 1;
      var (q, supported) := AuditSupported(p, t, previous, rated);
      if !supported then q
      else if t.audited then
        (if q.kept[previous] != [] then q.(audits := q.audits[previous := q.audits[previous] + 1]) else q)
      else q.(kept := q.kept[previous := KeptPush(q.kept[previous], best)])
  }

  function CutoffObserve(p: Plan, stage: nat): (r: Plan)
    requires p.Ok() && stage <= p.Count()
    ensures r.Ok() && r.settings == p.settings
  {
    p.(observed := p.observed[stage := p.observed[stage] + 1])
  }

  function Put<T(==)>(c: Control<T>, at: nat, p: Plan): Control<T>
    requires at < |c.plans|
  {
    c.(plans := c.plans[at := p])
  }

  function Onward(t: Ticket, audited: bool): Ticket {
    t.(stage := t.stage + 1, audited := audited)
  }

  /** The decision at a checkpoint that is not the last: whether the unit goes
      on, and its ticket. A unit below its target ends there, delivered. */
  function Checked<T(==)>(c: Control<T>, t: Ticket, best: int, target: Option<int>, v: Verdict): (Control<T>, Ticket, bool)
    requires c.Ok() && c.Reaches(t)
  {
    if t.topologyEpoch != c.topologyEpoch then (c, t, false)
    else
      var p := ObserveTransition(c.plans[t.plan], t, best, v.rated);
      var seen := Put(c, t.plan, p);
      if target.Some? && best < target.value then
        (seen, t.(finishSweeps := Some(p.settings.stages[t.stage])), false)
      else if target.Some? && best == target.value then (seen, Onward(t, false), true)
      else if p.settings.openGates then (seen, Onward(t, t.audited), true)
      else if p.settings.gates[t.stage].Some? then
        (if best <= p.settings.gates[t.stage].value then (seen, Onward(t, false), true)
         else (seen, t.(audited := false), false))
      else
        var decided := CutoffObserve(p, t.stage);
        if v.meets then (Put(c, t.plan, decided), Onward(t, false), true)
        else
          var (logged, supported) := AuditSupported(decided, t, t.stage, v.rated);
          var audited := supported && v.drawn;
          (Put(c, t.plan, logged), if audited then Onward(t, true) else t.(audited := false), audited)
  }

  /** Going on advances the stage by exactly one and stopping leaves it, so the
      ticket keeps step with the slot; every ticket, of whatever plan, still
      fits. */
  lemma CheckedFits<T>(c: Control<T>, t: Ticket, best: int, target: Option<int>, v: Verdict, other: Ticket)
    requires c.Ok() && c.Fits(t) && t.stage < t.gates
    ensures var (now, t', on) := Checked(c, t, best, target, v);
            && now.Ok() && now.Fits(t')
            && t'.stage == t.stage + (if on then 1 else 0)
            && t'.gates == t.gates && t'.plan == t.plan && t'.topologyEpoch == t.topologyEpoch && t'.round == t.round
            && now.settings == c.settings && now.plan == c.plan && now.topologyEpoch == c.topologyEpoch
            && |now.plans| == |c.plans| && now.round == c.round && now.range == c.range
            && (c.Fits(other) ==> now.Fits(other))
  {
    var p := ObserveTransition(c.plans[t.plan], t, best, v.rated);
    var decided := CutoffObserve(p, t.stage);
    var logged := AuditSupported(decided, t, t.stage, v.rated).0;
    CheckedShape(c, t, best, target, v, p, decided, logged);
    PutFits(c, t, p, other);
    PutFits(c, t, decided, other);
    PutFits(c, t, logged, other);
    hide Checked, ObserveTransition, CutoffObserve, AuditSupported;
  }

  /** A decision replaces the ticket's own plan only. */
  lemma CheckedShape<T>(c: Control<T>, t: Ticket, best: int, target: Option<int>, v: Verdict, p: Plan, decided: Plan, logged: Plan)
    requires c.Ok() && c.Fits(t) && t.stage < t.gates
    requires p == ObserveTransition(c.plans[t.plan], t, best, v.rated) && decided == CutoffObserve(p, t.stage)
    requires logged == AuditSupported(decided, t, t.stage, v.rated).0
    ensures var (now, t', on) := Checked(c, t, best, target, v);
            && (now == c || now == Put(c, t.plan, p) || now == Put(c, t.plan, decided) || now == Put(c, t.plan, logged))
            && t'.stage == t.stage + (if on then 1 else 0)
            && t'.gates == t.gates && t'.plan == t.plan && t'.topologyEpoch == t.topologyEpoch && t'.round == t.round
  {
    hide ObserveTransition, CutoffObserve, AuditSupported;
  }

  /** Replacing a plan by one of the same settings disturbs no ticket. */
  lemma PutFits<T>(c: Control<T>, t: Ticket, p: Plan, other: Ticket)
    requires c.Ok() && c.Fits(t) && p.Ok() && p.settings == c.plans[t.plan].settings
    ensures Put(c, t.plan, p).Ok() && Put(c, t.plan, p).Fits(t)
    ensures c.Fits(other) ==> Put(c, t.plan, p).Fits(other)
  {
  }

  /** Whether the miss rate from stage `i` to the next, or to the full budget, is
      calibrated. */
  predicate RatedAt(p: Plan, t: Ticket, i: nat, rated: (nat, nat) -> bool)
    requires i < |p.settings.stages| && t.gates <= |p.settings.stages|
  {
    rated(p.settings.stages[i], if i + 1 < t.gates then p.settings.stages[i + 1] else t.finalSweeps)
  }

  /** The adaptive cutoff decides: nothing before it did. */
  predicate Adaptive<T(==)>(c: Control<T>, t: Ticket, best: int, target: Option<int>)
    requires c.Ok() && c.Reaches(t)
  {
    var s := c.plans[t.plan].settings;
    && t.topologyEpoch == c.topologyEpoch && (target.None? || best > target.value)
    && !s.openGates && s.gates[t.stage].None?
  }

  /** When a unit goes on, and as what. One of an older topology stops; one below
      its target is delivered; one at its target, or with gates open, goes on; a
      fixed gate keeps those at most at it; and where the adaptive cutoff decides,
      those go on that meet it, and of the others those drawn for an audit of a
      transition whose miss rate is calibrated. */
  lemma CheckedDecides<T>(c: Control<T>, t: Ticket, best: int, target: Option<int>, v: Verdict)
    requires c.Ok() && c.Fits(t) && t.stage < t.gates
    ensures var (now, t', on) := Checked(c, t, best, target, v);
            var p, s := c.plans[t.plan], c.plans[t.plan].settings;
            var current, carried := t.topologyEpoch == c.topologyEpoch, v.drawn && RatedAt(c.plans[t.plan], t, t.stage, v.rated);
            && (!current ==> !on && t' == t && now == c)
            && (current && target.Some? && best < target.value ==>
                  !on && t' == t.(finishSweeps := Some(s.stages[t.stage])))
            && (current && target == Some(best) ==> on && t' == t.(stage := t.stage + 1, audited := false))
            && (current && (target.None? || best > target.value) && s.openGates ==> on && t' == t.(stage := t.stage + 1))
            && (current && (target.None? || best > target.value) && !s.openGates && s.gates[t.stage].Some? ==>
                  && (on <==> best <= s.gates[t.stage].value)
                  && t' == t.(stage := t'.stage, audited := false))
            && (Adaptive(c, t, best, target) ==>
                  && (on <==> v.meets || carried)
                  && t' == t.(stage := t'.stage, audited := !v.meets && carried))
  {
    hide CutoffObserve, KeptPush;
  }

  /** The last `KEPT_MAX` of a list. */
  function Newest(s: seq<int>): seq<int> {
    if |s| <= KEPT_MAX then s else s[|s| - KEPT_MAX..]
  }

  /** What an observation of the transition just made leaves in the plan: an
      unaudited energy joins those kept, an audited one counts as an audit when
      there is anything to compare it with, and an uncalibrated transition is
      noted. */
  predicate Transition(p: Plan, r: Plan, t: Ticket, best: int, rated: (nat, nat) -> bool)
    requires p.Ok() && t.stage <= p.Count() && t.gates <= MAX_STAGES
  {
    && r.settings == p.settings && r.Ok() && r.auditing == p.auditing
    && forall i: nat :: i < p.Count() ==>
         var made := i + 1 == t.stage;
         && r.kept[i] == (if made && RatedAt(p, t, i, rated) && !t.audited then Newest(p.kept[i] + [best]) else p.kept[i])
         && r.audits[i] == p.audits[i]
                           + (if made && RatedAt(p, t, i, rated) && t.audited && p.kept[i] != [] then 1 else 0)
         && (r.unavailable[i] <==> p.unavailable[i] || (made && !RatedAt(p, t, i, rated)))
  }

  lemma TransitionMade(p: Plan, t: Ticket, best: int, rated: (nat, nat) -> bool)
    requires p.Ok() && t.stage <= p.Count() && t.gates <= MAX_STAGES
    ensures Transition(p, ObserveTransition(p, t, best, rated), t, best, rated)
    ensures ObserveTransition(p, t, best, rated).observed == p.observed
  {
    hide KeptPush, Newest, AuditSupported, RatedAt, Configured;
    if t.stage > 0 {
      var previous := t.stage - 1;
      AuditSays(p, t, previous, rated);
      assert |p.kept[previous]| <= KEPT_MAX;
      KeptNewest(p.kept[previous], best);
    }
  }

  lemma AuditSays(p: Plan, t: Ticket, stage: nat, rated: (nat, nat) -> bool)
    requires p.Ok() && stage < p.Count() && t.gates <= MAX_STAGES
    ensures AuditSupported(p, t, stage, rated)
         == (if RatedAt(p, t, stage, rated) then (p, true) else (p.(unavailable := p.unavailable[stage := true]), false))
  {
  }

  lemma KeptNewest(kept: seq<int>, best: int)
    requires |kept| <= KEPT_MAX
    ensures KeptPush(kept, best) == Newest(kept + [best])
  {
  }

  /** What a decision records, all in the ticket's own plan: the transition just
      made, one observation for the stage's cutoff exactly where that decides, and
      an uncalibrated transition ahead where a failed unit asks for it. */
  lemma CheckedRecords<T>(c: Control<T>, t: Ticket, best: int, target: Option<int>, v: Verdict)
    requires c.Ok() && c.Fits(t) && t.stage < t.gates && t.topologyEpoch == c.topologyEpoch && t.gates <= MAX_STAGES
    ensures var now, was := Checked(c, t, best, target, v).0, c.plans[t.plan];
            && |now.plans| == |c.plans| && (forall k :: 0 <= k < |c.plans| && k != t.plan ==> now.plans[k] == c.plans[k])
            && var p, adaptive := now.plans[t.plan], Adaptive(c, t, best, target);
               && p.Ok() && p.settings == was.settings
               && p.observed == was.observed[t.stage := was.observed[t.stage] + if adaptive then 1 else 0]
               && exists made: Plan ::
                    && Transition(was, made, t, best, v.rated) && p.kept == made.kept && p.audits == made.audits
                    && p.unavailable == (if adaptive && !v.meets && !RatedAt(was, t, t.stage, v.rated)
                                         then made.unavailable[t.stage := true] else made.unavailable)
  {
    hide ObserveTransition, Transition, Configured, RatedAt, Checked, CutoffObserve, AuditSupported, Adaptive;
    var was := c.plans[t.plan];
    var made := ObserveTransition(was, t, best, v.rated);
    TransitionMade(was, t, best, v.rated);
    CheckedPlan(c, t, best, target, v);
    CutoffCounts(made, t.stage);
    AuditSays(CutoffObserve(made, t.stage), t, t.stage, v.rated);
    SameRated(was, CutoffObserve(made, t.stage), t, t.stage, v.rated);
    assert Transition(was, made, t, best, v.rated);
  }

  lemma SameRated(p: Plan, q: Plan, t: Ticket, i: nat, rated: (nat, nat) -> bool)
    requires q.settings == p.settings && i < |p.settings.stages| && t.gates <= |p.settings.stages|
    ensures RatedAt(q, t, i, rated) == RatedAt(p, t, i, rated)
  {
  }

  lemma CutoffCounts(p: Plan, stage: nat)
    requires p.Ok() && stage <= p.Count()
    ensures CutoffObserve(p, stage) == p.(observed := p.observed[stage := p.observed[stage] + 1])
  {
  }

  /** The plan a decision leaves, in its own terms. */
  lemma CheckedPlan<T>(c: Control<T>, t: Ticket, best: int, target: Option<int>, v: Verdict)
    requires c.Ok() && c.Fits(t) && t.stage < t.gates && t.topologyEpoch == c.topologyEpoch
    ensures var made := ObserveTransition(c.plans[t.plan], t, best, v.rated);
            Checked(c, t, best, target, v).0
            == Put(c, t.plan,
                   if !Adaptive(c, t, best, target) then made
                   else if v.meets then CutoffObserve(made, t.stage)
                   else AuditSupported(CutoffObserve(made, t.stage), t, t.stage, v.rated).0)
  {
    hide ObserveTransition, CutoffObserve, AuditSupported, Configured;
  }

  /** A unit that passed every gate, of the current topology, is the last
      observation of its plan; any other end with an energy touches no plan. */
  lemma FinishedRecords<T>(c: Control<T>, t: Ticket, best: int, rated: (nat, nat) -> bool)
    requires c.Ok() && c.Fits(t) && t.gates <= MAX_STAGES
    ensures var now, was := Finished(c, t, Some(best), rated), c.plans[t.plan];
            if t.topologyEpoch == c.topologyEpoch && t.stage == t.gates && t.gates > 0 then
              && |now.plans| == |c.plans| && (forall k :: 0 <= k < |c.plans| && k != t.plan ==> now.plans[k] == c.plans[k])
              && var p, last := now.plans[t.plan], was.Count();
                 && Transition(was, p.(observed := was.observed), t, best, rated)
                 && p.observed == was.observed[last := was.observed[last] + 1]
            else now.plans == c.plans
    ensures Finished(c, t, None, rated) == c
  {
    var was := c.plans[t.plan];
    TransitionMade(was, t, best, rated);
    hide ObserveTransition, Configured;
  }

  // What an unfit ticket does.

  /** A ticket of the current topology on a plan with open gates. */
  predicate Rides<T(==)>(c: Control<T>, t: Ticket) {
    && c.Ok() && t.plan < |c.plans| && t.topologyEpoch == c.topologyEpoch && t.gates <= MAX_STAGES
    && c.plans[t.plan].settings.openGates
  }

  /** Checkpoints at which nothing ends the unit. */
  function RunOn<T(==)>(c: Control<T>, t: Ticket, bests: seq<int>, v: Verdict): (r: (Control<T>, Ticket))
    requires Rides(c, t) && t.stage + |bests| <= t.gates && t.stage + |bests| <= c.plans[t.plan].Count() + 1
    ensures Rides(r.0, r.1) && r.1.stage == t.stage + |bests| && r.1.plan == t.plan && r.1.gates == t.gates
    ensures r.0.plans[t.plan].settings == c.plans[t.plan].settings
    decreases |bests|
  {
    if bests == [] then (c, t)
    else
      var (now, next, on) := Checked(c, t, bests[0], None, v);
      RunOn(now, next, bests[1..], v)
  }

  /** An unfit ticket under open gates goes on at every checkpoint until its plan
      has no entry for the transition just made: the audit test of the next
      observation, at a checkpoint or at the unit's end, indexes one past the end. */
  lemma UnfitIndexesPast<T>(c: Control<T>, t: Ticket, bests: seq<int>, v: Verdict)
    requires Rides(c, t) && t.stage == 0 && !c.Fits(t) && |bests| == c.plans[t.plan].Count() + 1
    ensures |bests| <= t.gates
    ensures var (now, late) := RunOn(c, t, bests, v);
            var p := now.plans[late.plan];
            && 0 < late.stage <= late.gates && late.topologyEpoch == now.topologyEpoch
            && late.stage - 1 == |p.unavailable| == |p.kept| == |p.audits|
  {
  }

  /** A ticket of the current topology on a plan whose every stage has a fixed
      gate, and with no gate past them. */
  predicate Gated<T(==)>(c: Control<T>, t: Ticket) {
    && c.Ok() && t.plan < |c.plans| && t.topologyEpoch == c.topologyEpoch && t.gates <= MAX_STAGES
    && var p := c.plans[t.plan];
       && !p.settings.openGates && p.Count() < MAX_STAGES
       && (forall i :: 0 <= i < p.Count() ==> p.settings.gates[i].Some?) && p.settings.gates[p.Count()].None?
  }

  /** Checkpoints at which the unit passes the fixed gate. */
  function PassOn<T(==)>(c: Control<T>, t: Ticket, bests: seq<int>, v: Verdict): (r: (Control<T>, Ticket))
    requires Gated(c, t) && t.stage + |bests| <= t.gates && t.stage + |bests| <= c.plans[t.plan].Count()
    requires forall k :: 0 <= k < |bests| ==> bests[k] <= c.plans[t.plan].settings.gates[t.stage + k].value
    ensures Gated(r.0, r.1) && r.1.stage == t.stage + |bests| && r.1.plan == t.plan && r.1.gates == t.gates
    ensures r.0.plans[t.plan].settings == c.plans[t.plan].settings
    decreases |bests|
  {
    if bests == [] then (c, t)
    else
      var (now, next, on) := Checked(c, t, bests[0], None, v);
      PassOn(now, next, bests[1..], v)
  }

  /** An unfit ticket on a chain-gated plan that passes every fixed gate reaches a
      checkpoint the plan has no stage for. The adaptive cutoff decides there: if
      it fails the unit the audit test indexes one past the end, and if not the
      next observation's does. */
  lemma UnfitIndexesGated<T>(c: Control<T>, t: Ticket, bests: seq<int>, v: Verdict)
    requires Gated(c, t) && t.stage == 0 && !c.Fits(t) && |bests| == c.plans[t.plan].Count()
    requires forall k :: 0 <= k < |bests| ==> bests[k] <= c.plans[t.plan].settings.gates[k].value
    ensures |bests| < t.gates
    ensures var (now, late) := PassOn(c, t, bests, v);
            var p := now.plans[late.plan];
            && late.stage < late.gates && late.topologyEpoch == now.topologyEpoch
            && !p.settings.openGates && p.settings.gates[late.stage].None?
            && late.stage == |p.unavailable| == |p.kept| == |p.audits|
  {
  }

  /** Gates closed after a unit of sixteen configured stages was prepared: it
      holds sixteen gates on the chain plan of fifteen stages. */
  lemma ToggledOverrunsGated()
    ensures exists c: Control<int>, p: Prepared ::
              c.Ok() && p.settings.Valid() && Toggled(c, p)
              && var (now, t) := Admitted(c, p, 0);
                 t.gates == 16 && now.plans[t.plan].Count() == 15 && !now.Fits(t) && Gated(now, t) && t.stage == 0
  {
    hide StagesBelow, Configured, Admitted, Gated, Control<int>.Ok, NewControl;
    var closed := DEFAULT_SETTINGS.(stages := SIXTEEN);
    SixteenStages();
    NewControlOk(closed);
    SixteenGated(NewControl(closed), Prepared(closed.(openGates := true), true, true, 17));
  }

  lemma NewControlOk(settings: Settings)
    requires settings.Valid()
    ensures var c: Control<int> := NewControl(settings); c.Ok() && c.settings == settings && c.topology.None?
  {
    hide NewPlan;
    NewPlanOk(settings);
  }

  lemma SixteenGated(c: Control<int>, p: Prepared)
    requires c.Ok() && p.settings.Valid() && p.screen && p.gated && c.topology.None?
    requires p.settings.stages == c.settings.stages && p.settings.openGates && !c.settings.openGates
    requires StagesBelow(p.settings.stages, p.sweeps) == 16
    ensures Toggled(c, p)
    ensures var (now, t) := Admitted(c, p, 0);
            t.gates == 16 && now.plans[t.plan].Count() == 15 && !now.Fits(t) && Gated(now, t) && t.stage == 0
  {
    hide StagesBelow, Configured, NewPlan;
    ChainCount();
    AdmittedFits(c, p, 0);
    GatedPlan(c, p);
    PlannedOk(c, p, 0, Ticket(0, 0, false, 0, 0, None, 0, 0));
  }

  const SIXTEEN: seq<nat> := [1, 2, 3, 4, 5, 6, 7, 8, 9, 10, 11, 12, 13, 14, 15, 16]

  lemma SixteenStages()
    ensures |SIXTEEN| == MAX_STAGES && StagesOk(SIXTEEN) && StagesBelow(SIXTEEN, 17) == 16
  {
    Counting();
    hide SIXTEEN, StagesBelow;
    var n := StagesBelow(SIXTEEN, 17);
  }

  lemma Counting()
    ensures |SIXTEEN| == 16 && forall i :: 0 <= i < 16 ==> SIXTEEN[i] == i + 1
  {
  }

  /** A new plan for a gated unit is the chain's, with its fixed gates. */
  lemma GatedPlan<T>(c: Control<T>, p: Prepared)
    requires c.Ok() && p.gated && p.settings.stages == c.settings.stages && !c.settings.openGates && c.topology.None?
    requires p.Checkpoints() > 1 && p.Checkpoints() - 1 <= MAX_STAGES
    ensures forall topology: T :: var (now, t) := Admitted(c, p, topology); now.Ok() ==> Gated(now, t)
  {
    hide StagesBelow;
    ChainCount();
  }

  // Ends.

  function Wider(range: Option<(int, int)>, best: int): (r: Option<(int, int)>)
    ensures r.Some?
  {
    if range.None? then Some((best, best))
    else Some((Min2(range.value.0, best), Max2(range.value.1, best)))
  }

  function Min2(a: int, b: int): int { if a <= b then a else b }
  function Max2(a: int, b: int): int { if a >= b then a else b }

  /** A unit's end: with an energy it widens its round's range, and a unit that
      passed every gate is the last observation of its plan. */
  function Finished<T(==)>(c: Control<T>, t: Ticket, best: Option<int>, rated: (nat, nat) -> bool): Control<T>
    requires c.Ok() && c.Fits(t)
  {
    if best.None? then c
    else
      var ranged := if t.round == c.round then c.(range := Wider(c.range, best.value)) else c;
      if t.topologyEpoch == c.topologyEpoch && t.stage == t.gates && t.gates > 0 then
        var p := ObserveTransition(c.plans[t.plan], t, best.value, rated);
        Put(ranged, t.plan, CutoffObserve(p, p.Count()))
      else ranged
  }

  lemma FinishedFits<T>(c: Control<T>, t: Ticket, best: Option<int>, rated: (nat, nat) -> bool, other: Ticket)
    requires c.Ok() && c.Fits(t)
    ensures var now := Finished(c, t, best, rated);
            && now.Ok() && |now.plans| == |c.plans| && now.settings == c.settings && now.plan == c.plan
            && now.topologyEpoch == c.topologyEpoch && now.round == c.round
            && (c.Fits(other) ==> now.Fits(other))
  {
  }

  /** A salt of a newer round starts a new range; older rounds never reopen. */
  function Entered<T(==)>(c: Control<T>, round: nat): Control<T> {
    if round > c.round then c.(round := round, range := None) else c
  }

  lemma EnteredFits<T>(c: Control<T>, round: nat, t: Ticket)
    requires c.Ok()
    ensures Entered(c, round).Ok() && (c.Fits(t) ==> Entered(c, round).Fits(t))
  {
  }

  // The round's range, over a run of ends.

  /** One event that bears on the range: a round entered, or an end. */
  datatype Event = Enter(round: nat) | End(round: nat, best: int)

  function RoundAfter(events: seq<Event>): nat {
    if events == [] then 0
    else
      var before, e := RoundAfter(events[..|events| - 1]), events[|events| - 1];
      if e.Enter? && e.round > before then e.round else before
  }

  function RangeAfter(events: seq<Event>): Option<(int, int)> {
    if events == [] then None
    else
      var before, e := events[..|events| - 1], events[|events| - 1];
      match e
      case Enter(round) => if round > RoundAfter(before) then None else RangeAfter(before)
      case End(round, best) => if round == RoundAfter(before) then Wider(RangeAfter(before), best) else RangeAfter(before)
  }

  /** Ends of the current round that came after it began. */
  predicate Counts(events: seq<Event>, i: nat)
    requires i < |events|
  {
    events[i].End? && events[i].round == RoundAfter(events) && RoundAfter(events[..i]) == RoundAfter(events)
  }

  lemma {:induction false} RoundGrows(events: seq<Event>, i: nat)
    requires i <= |events|
    ensures RoundAfter(events[..i]) <= RoundAfter(events)
    decreases |events| - i
  {
    if i < |events| {
      RoundGrows(events, i + 1);
      assert events[..i + 1][..i] == events[..i];
    } else {
      assert events[..i] == events;
    }
  }

  lemma CountsShorter(events: seq<Event>, i: nat)
    requires i + 1 < |events|
    ensures var before := events[..|events| - 1];
            RoundAfter(events) == RoundAfter(before) ==> (Counts(events, i) <==> Counts(before, i))
    ensures RoundAfter(events) != RoundAfter(events[..|events| - 1]) ==> !Counts(events, i)
  {
    var before := events[..|events| - 1];
    assert before[..i] == events[..i];
    RoundGrows(before, i);
    RoundGrows(events, |events| - 1);
  }

  /** The range is exactly the lowest and highest energy among the ends of the
      current round: it bounds each of them, and both bounds are taken. */
  lemma {:induction false} RangeIsExact(events: seq<Event>)
    ensures forall i: nat :: i < |events| && Counts(events, i) ==>
              && RangeAfter(events).Some?
              && RangeAfter(events).value.0 <= events[i].best <= RangeAfter(events).value.1
    ensures RangeAfter(events).Some? ==>
              exists i: nat, j: nat ::
                && i < |events| && j < |events| && Counts(events, i) && Counts(events, j)
                && events[i].best == RangeAfter(events).value.0 && events[j].best == RangeAfter(events).value.1
  {
    if events != [] {
      var last := |events| - 1;
      var before := events[..last];
      RangeIsExact(before);
      forall i: nat | i < last
        ensures RoundAfter(events) == RoundAfter(before) ==> (Counts(events, i) <==> Counts(before, i))
        ensures RoundAfter(events) != RoundAfter(before) ==> !Counts(events, i)
      {
        CountsShorter(events, i);
      }
      hide Counts, RoundAfter;
      assert Counts(events, last) <==> events[last].End? && events[last].round == RoundAfter(before) by {
        LastCounts(events);
      }
      LastRound(events);
    }
  }

  lemma LastCounts(events: seq<Event>)
    requires events != []
    ensures Counts(events, |events| - 1)
        <==> events[|events| - 1].End? && events[|events| - 1].round == RoundAfter(events[..|events| - 1])
  {
  }

  lemma LastRound(events: seq<Event>)
    requires events != []
    ensures var before, e := events[..|events| - 1], events[|events| - 1];
            RoundAfter(events) != RoundAfter(before) <==> e.Enter? && e.round > RoundAfter(before)
  {
  }

  /** The controller's round and range follow the events it sees. */
  lemma RangeFollows<T>(c: Control<T>, events: seq<Event>, t: Ticket, best: int, rated: (nat, nat) -> bool, round: nat)
    requires c.Ok() && c.Fits(t) && c.round == RoundAfter(events) && c.range == RangeAfter(events)
    ensures var now, after := Finished(c, t, Some(best), rated), events + [End(t.round, best)];
            now.round == RoundAfter(after) && now.range == RangeAfter(after)
    ensures var now, after := Entered(c, round), events + [Enter(round)];
            now.round == RoundAfter(after) && now.range == RangeAfter(after)
  {
    assert (events + [End(t.round, best)])[..|events|] == events;
    assert (events + [Enter(round)])[..|events|] == events;
  }

  /** The controller itself. */
  class Controller<T(==)> {
    var settings: Settings
    var plans: seq<Plan>
    var plan: nat
    var topology: Option<T>
    var topologyEpoch: nat
    var round: nat
    var range: Option<(int, int)>

    function Now(): Control<T>
      reads this
    {
      Control(settings, plans, plan, topology, topologyEpoch, round, range)
    }

    constructor (settings: Settings)
      requires settings.Valid()
      ensures Now() == NewControl(settings) && Now().Ok()
    {
      this.settings, plans, plan := settings, [NewPlan(settings)], 0;
      topology, topologyEpoch, round, range := None, 0, 0, None;
      NewPlanOk(settings);
    }

    method Refresh(changed: Settings)
      requires Now().Ok() && changed.Valid()
      modifies this
      ensures Now() == Refreshed(old(Now()), changed) && Now().Ok()
    {
      RefreshedOk(Now(), changed, Ticket(0, 0, false, 0, 0, None, plan, 0));
      if changed.stages != settings.stages || changed.keep != settings.keep
         || changed.keepMin != settings.keepMin || changed.keepMax != settings.keepMax
      {
        plan := |plans|;
        plans := plans + [NewPlan(changed)];
      }
      settings := changed;
      var p := plans[plan];
      plans := plans[plan := p.(settings := p.settings.(audit := changed.audit, openGates := changed.openGates))];
    }

    /** The gate plan for a schedule with gates. */
    method Replan(p: Prepared, graph: T)
      requires Now().Ok() && p.Checkpoints() > 1
      modifies this
      ensures Now() == Planned(old(Now()), p, graph)
    {
      var wanted := settings.Effective(p.gated);
      hide NewPlan, StagesBelow;
      var all, at := plans, plan;
      if topology != Some(graph) {
        all, at := plans + [NewPlan(wanted)], |plans|;
        topology := Some(graph);
        topologyEpoch := (topologyEpoch + 1) % EPOCHS;
      } else if plans[plan].settings.stages != wanted.stages || plans[plan].settings.gates != wanted.gates {
        all, at := plans + [NewPlan(wanted)], |plans|;
      }
      plans, plan := all[at := all[at].(auditing := true)], at;
    }

    method AdmitPrepared(p: Prepared, graph: T) returns (now: Prepared, t: Ticket)
      requires Now().Ok() && p.settings.Valid()
      modifies this
      ensures Now() == Admitted(old(Now()), p, graph).0 && t == Admitted(old(Now()), p, graph).1 && Now().Ok()
      ensures now == Current(old(Now()), p)
    {
      hide NewPlan, StagesBelow, Configured;
      PlannedOk(Now(), Current(Now(), p), graph, Ticket(0, 0, false, 0, 0, None, plan, 0));
      now := p;
      if now.settings.stages != settings.stages {
        now := now.(settings := settings);
      }
      assert now == Current(Now(), p);
      if now.Checkpoints() > 1 {
        Replan(now, graph);
      }
      t := Ticket(now.Checkpoints() - 1, 0, false, topologyEpoch, round, None, plan, now.sweeps);
    }

    method Checkpoint(t: Ticket, best: int, target: Option<int>, v: Verdict) returns (t': Ticket, on: bool)
      requires Now().Ok() && Now().Fits(t) && t.stage < t.gates
      modifies this
      ensures Now() == Checked(old(Now()), t, best, target, v).0 && Now().Ok() && Now().Fits(t')
      ensures (t', on) == (Checked(old(Now()), t, best, target, v).1, Checked(old(Now()), t, best, target, v).2)
    {
      hide ObserveTransition, AuditSupported, CutoffObserve, KeptPush, Configured;
      CheckedFits(Now(), t, best, target, v, t);
      t', on := t, false;
      if t.topologyEpoch != topologyEpoch {
        return;
      }
      var p := ObserveTransition(plans[t.plan], t, best, v.rated);
      plans := plans[t.plan := p];
      var stage := t.stage;
      if target.Some? {
        if best < target.value {
          t' := t'.(finishSweeps := Some(p.settings.stages[stage]));
          return;
        }
        if best == target.value {
          t', on := t'.(audited := false, stage := stage + 1), true;
          return;
        }
      }
      if p.settings.openGates {
        t', on := t'.(stage := stage + 1), true;
        return;
      }
      if p.settings.gates[stage].Some? {
        on := best <= p.settings.gates[stage].value;
        t' := t'.(audited := false, stage := if on then stage + 1 else stage);
        return;
      }
      p := CutoffObserve(p, stage);
      var audited := false;
      if !v.meets {
        var (logged, supported) := AuditSupported(p, t, stage, v.rated);
        p := logged;
        audited := supported && v.drawn;
      }
      plans := plans[t.plan := p];
      on := v.meets || audited;
      t' := t'.(audited := audited, stage := if on then stage + 1 else stage);
    }

    method Finish(t: Ticket, best: Option<int>, rated: (nat, nat) -> bool)
      requires Now().Ok() && Now().Fits(t)
      modifies this
      ensures Now() == Finished(old(Now()), t, best, rated) && Now().Ok() && Now().Fits(t)
    {
      FinishedFits(Now(), t, best, rated, t);
      if best.None? {
        return;
      }
      if t.round == round {
        range := Wider(range, best.value);
      }
      if t.topologyEpoch == topologyEpoch && t.stage == t.gates && t.gates > 0 {
        var p := ObserveTransition(plans[t.plan], t, best.value, rated);
        plans := plans[t.plan := CutoffObserve(p, |p.observed| - 1)];
      }
    }

    method EnterRound(entered: nat)
      requires Now().Ok()
      modifies this
      ensures Now() == Entered(old(Now()), entered) && Now().Ok()
    {
      if entered > round {
        round, range := entered, None;
      }
    }
  }
}
