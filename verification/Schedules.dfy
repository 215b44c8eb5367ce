/**
 * Stage settings and segment schedules (src/cascade.rs, with the standard
 * schedule of src/sampler.rs): which stage plans can be configured, and the
 * schedule a job's stages and budget lay out.
 */
module Schedules {
  import opened Wrappers
  import opened Slots

  const MAX_STAGES: nat := 16
  const REHEAT_THROUGH: nat := 256
  const REHEAT_BETA: real := 0.25

  /** Stage budgets, padded with zeros. */
  type Stages = s: seq<nat> | |s| == MAX_STAGES witness seq(MAX_STAGES, _ => 0)

  const CHAIN_STAGES: seq<nat> :=
    [8, 16, 64, 256, 512, 1_024, 2_048, 4_096, 8_192, 16_384, 32_768, 65_536, 131_072, 262_144, 524_288]
  const CHAIN_GATES: seq<int> :=
    [-13_252_000, -13_836_000, -14_276_000, -14_466_000, -14_512_000, -14_552_000, -14_584_000, -14_608_000,
     -14_624_000, -14_640_000, -14_648_000, -14_658_000, -14_662_000, -14_670_000, -14_678_000]
  const CHAIN_FULL_SWEEPS: nat := 1_048_576
  const DEFAULT_STAGES: seq<nat> := [32, 256]

  function StageArray(stages: seq<nat>): Stages
    requires |stages| <= MAX_STAGES
  {
    stages + seq(MAX_STAGES - |stages|, _ => 0)
  }

  /** Stages in use come first and strictly increase; the rest are zero. */
  predicate StagesOk(stages: Stages) {
    forall i, j :: 0 <= i < j < MAX_STAGES ==> stages[i] < stages[j] || stages[j] == 0
  }

  datatype Settings = Settings(
    stages: Stages,
    gates: seq<Option<int>>,
    openGates: bool,
    keep: real,
    keepMin: real,
    keepMax: real,
    audit: nat,
    yieldPerMillion: Option<real>)
  {
    predicate Valid() {
      && |gates| == MAX_STAGES
      && StagesOk(stages) && stages[0] > 0
      && 2.0 <= keepMin <= keep <= keepMax
      && audit >= 2
      && (yieldPerMillion.Some? ==> yieldPerMillion.value > 0.0)
    }

    /** The configured settings, or the chain-gated plan when `gated`. */
    function Effective(gated: bool): Settings {
      if gated && !openGates then
        this.(stages := StageArray(CHAIN_STAGES),
              gates := seq(|CHAIN_GATES|, i requires 0 <= i < |CHAIN_GATES| => Some(CHAIN_GATES[i]))
                       + seq(MAX_STAGES - |CHAIN_GATES|, _ => None))
      else this
    }
  }

  /** The chain plan is in force for chain-gated units while gates are not open, and
      what is configured for all others. */
  lemma EffectiveIs(s: Settings, gated: bool)
    ensures !gated || s.openGates ==> s.Effective(gated) == s
    ensures var e := s.Effective(gated);
            gated && !s.openGates ==>
              && |CHAIN_STAGES| == |CHAIN_GATES| == 15 && |e.gates| == MAX_STAGES
              && (forall i :: 0 <= i < 15 ==> e.stages[i] == CHAIN_STAGES[i] && e.gates[i] == Some(CHAIN_GATES[i]))
              && e.stages[15] == 0 && e.gates[15].None? && e == s.(stages := e.stages, gates := e.gates)
  {
  }

  const DEFAULT_SETTINGS: Settings :=
    Settings(StageArray(DEFAULT_STAGES), seq(MAX_STAGES, _ => None), false, 2_000.0, 1_000.0, 30_000.0, 200, None)

  /** The cascade keys of a configuration message. */
  datatype Update = Update(
    stages: Option<seq<nat>>,
    openGates: Option<bool>,
    keep: Option<real>,
    keepMin: Option<real>,
    keepMax: Option<real>,
    audit: Option<nat>,
    yieldPerMillion: Option<real>)

  function Or<T>(o: Option<T>, other: T): T {
    if o.Some? then o.value else other
  }

  predicate AcceptableStages(stages: seq<nat>) {
    && 1 <= |stages| <= MAX_STAGES
    && stages[0] >= 1
    && forall i :: 0 <= i < |stages| - 1 ==> stages[i] < stages[i + 1]
  }

  /** Merge valid keys; an invalid key keeps the previous value. The three keep
      denominators are accepted as one group. */
  function Merge(s: Settings, u: Update): Settings {
    var stages := if u.stages.Some? && AcceptableStages(u.stages.value) then StageArray(u.stages.value) else s.stages;
    var keep, lo, hi := Or(u.keep, s.keep), Or(u.keepMin, s.keepMin), Or(u.keepMax, s.keepMax);
    var group := lo >= 2.0 && lo <= keep && keep <= hi;
    s.(stages := stages,
       openGates := Or(u.openGates, s.openGates),
       keep := if group then keep else s.keep,
       keepMin := if group then lo else s.keepMin,
       keepMax := if group then hi else s.keepMax,
       audit := if u.audit.Some? && u.audit.value >= 2 then u.audit.value else s.audit,
       yieldPerMillion :=
         if u.yieldPerMillion.Some? && u.yieldPerMillion.value > 0.0 then u.yieldPerMillion else s.yieldPerMillion)
  }

  /** Each key that is present and acceptable takes its value, every other setting
      keeps its own, and the three keep denominators change together or not at all. */
  lemma MergeTakes(s: Settings, u: Update)
    ensures var m := Merge(s, u);
            && m.gates == s.gates
            && m.openGates == (if u.openGates.Some? then u.openGates.value else s.openGates)
            && m.audit == (if u.audit.Some? && u.audit.value >= 2 then u.audit.value else s.audit)
            && (if u.yieldPerMillion.Some? && u.yieldPerMillion.value > 0.0 then m.yieldPerMillion == u.yieldPerMillion
                else m.yieldPerMillion == s.yieldPerMillion)
    ensures var m := Merge(s, u);
            if u.stages.Some? && 1 <= |u.stages.value| <= 16 && u.stages.value[0] >= 1
               && forall i, j :: 0 <= i < j < |u.stages.value| ==> u.stages.value[i] < u.stages.value[j] then
              && u.stages.value <= m.stages
              && forall i :: |u.stages.value| <= i < MAX_STAGES ==> m.stages[i] == 0
            else m.stages == s.stages
    ensures var m := Merge(s, u);
            var lo, mid, hi := (if u.keepMin.Some? then u.keepMin.value else s.keepMin),
                               (if u.keep.Some? then u.keep.value else s.keep),
                               (if u.keepMax.Some? then u.keepMax.value else s.keepMax);
            (m.keepMin, m.keep, m.keepMax) == if 2.0 <= lo <= mid <= hi then (lo, mid, hi) else (s.keepMin, s.keep, s.keepMax)
  {
    if u.stages.Some? && AcceptableStages(u.stages.value) {
      forall i, j | 0 <= i < j < |u.stages.value|
        ensures u.stages.value[i] < u.stages.value[j]
      {
        AscendingAll(u.stages.value, i, j);
      }
    }
  }

  function MergeAll(s: Settings, updates: seq<Update>): Settings {
    if updates == [] then s else Merge(MergeAll(s, updates[..|updates| - 1]), updates[|updates| - 1])
  }

  lemma {:induction false} AscendingAll(stages: seq<nat>, i: nat, j: nat)
    requires forall k :: 0 <= k < |stages| - 1 ==> stages[k] < stages[k + 1]
    requires i < j < |stages|
    ensures stages[i] < stages[j]
    decreases j
  {
    if i + 1 < j {
      AscendingAll(stages, i, j - 1);
    }
  }

  lemma MergeValid(s: Settings, u: Update)
    requires s.Valid()
    ensures Merge(s, u).Valid()
  {
    if u.stages.Some? && AcceptableStages(u.stages.value) {
      var stages := u.stages.value;
      forall i, j | 0 <= i < j < |stages|
        ensures stages[i] < stages[j]
      {
        AscendingAll(stages, i, j);
      }
    }
  }

  /**
   * Whatever configuration messages arrive, and whether a job is chain-gated
   * or not, the settings in force are valid: stages strictly increase and the
   * keep denominators are ordered.
   */
  lemma {:induction false} SettingsStayValid(updates: seq<Update>, gated: bool)
    ensures MergeAll(DEFAULT_SETTINGS, updates).Valid()
    ensures MergeAll(DEFAULT_SETTINGS, updates).Effective(gated).Valid()
  {
    if updates != [] {
      SettingsStayValid(updates[..|updates| - 1], gated);
      MergeValid(MergeAll(DEFAULT_SETTINGS, updates[..|updates| - 1]), updates[|updates| - 1]);
    }
  }

  // ----- Segment schedules -----

  /** A ladder of `n` non-negative betas from the first to the second. */
  type Ladder = (real, real, nat) -> seq<real>

  ghost predicate LadderOk(ladder: Ladder) {
    forall hot, cold, n: nat ::
      |ladder(hot, cold, n)| == n && forall i :: 0 <= i < n ==> ladder(hot, cold, n)[i] >= 0.0
  }

  /** Everything a segment schedule depends on. */
  datatype ScheduleKey = ScheduleKey(hot: real, cold: real, sweeps: nat, perBeta: nat, stages: Stages)

  /** How many stages come before the job's own budget. */
  function StagesBelow(stages: seq<nat>, sweeps: nat): (n: nat)
    ensures n <= |stages|
    ensures forall i :: 0 <= i < n ==> 0 < stages[i] < sweeps
    ensures n < |stages| ==> stages[n] == 0 || stages[n] >= sweeps
  {
    if stages == [] || stages[0] == 0 || stages[0] >= sweeps then 0
    else 1 + StagesBelow(stages[1..], sweeps)
  }

  /** The sweep budget of each leg. */
  function Budgets(key: ScheduleKey): seq<nat> {
    key.stages[..StagesBelow(key.stages, key.sweeps)] + [key.sweeps]
  }

  /** The first leg that runs as a fresh anneal: the first long budget. */
  function FreshFrom(budgets: seq<nat>): (n: nat)
    ensures n <= |budgets|
    ensures forall i :: 0 <= i < n ==> budgets[i] <= REHEAT_THROUGH
    ensures n < |budgets| ==> budgets[n] > REHEAT_THROUGH
  {
    if budgets == [] || budgets[0] > REHEAT_THROUGH then 0 else 1 + FreshFrom(budgets[1..])
  }

  lemma Rungs(ladder: Ladder, hot: real, cold: real, n: nat)
    requires LadderOk(ladder)
    ensures |ladder(hot, cold, n)| == n && forall i :: 0 <= i < n ==> ladder(hot, cold, n)[i] >= 0.0
  {
  }

  /** Which rung sweep `i` is on, `per` sweeps to a rung. */
  function RungAt(i: nat, per: nat): nat
    requires per > 0
  {
    i / per
  }

  /** How many sweeps come before a rung. */
  function SweepsBefore(rung: nat, per: nat): nat { rung * per }

  lemma NextRung(rung: nat, per: nat)
    ensures SweepsBefore(rung + 1, per) == SweepsBefore(rung, per) + per && SweepsBefore(0, per) == 0
  {
  }

  /** How many rungs a complete anneal has. */
  function RungCount(sweeps: nat, per: nat): (n: nat)
    requires per > 0
    ensures n > 0
  {
    Max(1, sweeps / per)
  }

  /** `n` sweeps down a ladder, `per` to a rung, the last rung held to the end. */
  function Hold(rungs: seq<real>, per: nat, n: nat): (betas: seq<real>)
    requires rungs != [] && per > 0
    ensures |betas| == n
  {
    if n == 0 then [] else Hold(rungs, per, n - 1) + [rungs[Min(RungAt(n - 1, per), |rungs| - 1)]]
  }

  /** Sweep `i` takes the beta of its rung. */
  lemma {:induction false} HoldAt(rungs: seq<real>, per: nat, n: nat, i: nat)
    requires rungs != [] && per > 0 && i < n
    ensures Hold(rungs, per, n)[i] == rungs[Min(RungAt(i, per), |rungs| - 1)]
  {
    hide RungAt;
    if i < n - 1 {
      HoldAt(rungs, per, n - 1, i);
    }
  }

  /** A complete anneal of `sweeps` sweeps: each rung of a ladder of
      `max(1, sweeps / perBeta)` betas held for `perBeta` sweeps, and the last
      one for whatever remains. */
  function Standard(ladder: Ladder, key: ScheduleKey, sweeps: nat): (betas: seq<real>)
    requires LadderOk(ladder)
    ensures |betas| == sweeps
  {
    var per := Max(1, key.perBeta);
    var n := RungCount(sweeps, per);
    Rungs(ladder, key.hot, key.cold, n);
    Hold(ladder(key.hot, key.cold, n), per, sweeps)
  }

  /** Sweep `i` of a complete anneal of `n` rungs is on rung `rung`, or past the last
      one and held there. */
  lemma StandardAt(ladder: Ladder, key: ScheduleKey, sweeps: nat, i: nat, per: nat, n: nat, rung: nat)
    requires LadderOk(ladder) && i < sweeps && per == if key.perBeta == 0 then 1 else key.perBeta
    requires if sweeps < per then n == 1 else n * per <= sweeps < n * per + per
    requires rung * per <= i < rung * per + per
    ensures |ladder(key.hot, key.cold, n)| == n > 0
    ensures Standard(ladder, key, sweeps)[i] == ladder(key.hot, key.cold, n)[if rung < n then rung else n - 1]
  {
    DivOf(rung, per, i - rung * per);
    RungCountIs(sweeps, per, n);
    Rungs(ladder, key.hot, key.cold, n);
    hide LadderOk, RungAt, RungCount, Hold;
    HoldAt(ladder(key.hot, key.cold, n), per, sweeps, i);
  }

  lemma RungCountIs(sweeps: nat, per: nat, n: nat)
    requires per > 0 && if sweeps < per then n == 1 else n * per <= sweeps < n * per + per
    ensures RungCount(sweeps, per) == n
  {
    if sweeps < per {
      DivOf(0, per, sweeps);
    } else {
      DivOf(n, per, sweeps - n * per);
      if n == 0 {
        assert false;
      }
    }
  }

  /** Whether the reheat beta lies inside the job's range. */
  predicate Reheats(key: ScheduleKey) {
    key.hot < REHEAT_BETA < key.cold
  }

  predicate Ascending(s: seq<nat>) {
    forall i, j :: 0 <= i < j < |s| ==> s[i] < s[j]
  }

  /** The continuing legs: one anneal, reheated at each checkpoint after the first. */
  function Continuing(ladder: Ladder, key: ScheduleKey, legs: seq<nat>): (betas: seq<real>)
    requires LadderOk(ladder) && Ascending(legs)
    ensures |betas| == if legs == [] then 0 else legs[|legs| - 1]
  {
    var last := |legs| - 1;
    if legs == [] then []
    else if |legs| == 1 || !Reheats(key) then Standard(ladder, key, legs[last])
    else
      Rungs(ladder, REHEAT_BETA, key.cold, legs[last] - legs[last - 1]);
      Continuing(ladder, key, legs[..last]) + ladder(REHEAT_BETA, key.cold, legs[last] - legs[last - 1])
  }

  /** Where the reheat beta lies inside the range every leg after the first starts
      again from it; elsewhere the legs are one anneal of the last budget. */
  lemma {:induction false} ReheatLeg(ladder: Ladder, key: ScheduleKey, legs: seq<nat>, k: nat)
    requires LadderOk(ladder) && Ascending(legs) && k < |legs|
    ensures key.hot < 0.25 < key.cold ==>
              LegBetas(Continuing(ladder, key, legs), legs, k)
              == if k == 0 then Standard(ladder, key, legs[0]) else ladder(0.25, key.cold, legs[k] - legs[k - 1])
    ensures !(key.hot < 0.25 < key.cold) ==> Continuing(ladder, key, legs) == Standard(ladder, key, legs[|legs| - 1])
    decreases |legs|
  {
    hide LadderOk, Standard, LegBetas;
    var last := |legs| - 1;
    if last > 0 && Reheats(key) {
      var next := ladder(REHEAT_BETA, key.cold, legs[last] - legs[last - 1]);
      Rungs(ladder, REHEAT_BETA, key.cold, legs[last] - legs[last - 1]);
      if k < last {
        ReheatLeg(ladder, key, legs[..last], k);
      }
      LegKept(Continuing(ladder, key, legs[..last]), next, legs, k);
    } else if last == 0 {
      OnlyLeg(Standard(ladder, key, legs[0]), legs);
    }
  }

  /** The betas between the ends of leg `k`. */
  function LegBetas(betas: seq<real>, legs: seq<nat>, k: nat): seq<real>
    requires k < |legs| && Ascending(legs) && legs[k] <= |betas|
  {
    betas[if k == 0 then 0 else legs[k - 1]..legs[k]]
  }

  lemma LegKept(a: seq<real>, b: seq<real>, legs: seq<nat>, k: nat)
    requires |legs| > 1 && k < |legs| && Ascending(legs) && |a| == legs[|legs| - 2] && |a + b| == legs[|legs| - 1]
    ensures Ascending(legs[..|legs| - 1]) && legs[k] <= |a + b|
    ensures LegBetas(a + b, legs, k) == if k == |legs| - 1 then b else LegBetas(a, legs[..|legs| - 1], k)
  {
  }

  lemma OnlyLeg(betas: seq<real>, legs: seq<nat>)
    requires |legs| == 1 && Ascending(legs) && |betas| == legs[0]
    ensures LegBetas(betas, legs, 0) == betas
  {
  }

  function Sum(s: seq<nat>): nat {
    if s == [] then 0 else Sum(s[..|s| - 1]) + s[|s| - 1]
  }

  /** The fresh legs, each a complete anneal of its own budget. */
  function FreshLegs(ladder: Ladder, key: ScheduleKey, legs: seq<nat>): (betas: seq<real>)
    requires LadderOk(ladder)
    ensures |betas| == Sum(legs)
  {
    if legs == [] then []
    else FreshLegs(ladder, key, legs[..|legs| - 1]) + Standard(ladder, key, legs[|legs| - 1])
  }

  /** Where each leg of `legs` ends when the first starts at `start`. */
  function Ends(start: nat, legs: seq<nat>): (ends: seq<nat>)
    ensures |ends| == |legs|
  {
    if legs == [] then [] else Ends(start, legs[..|legs| - 1]) + [start + Sum(legs)]
  }

  datatype Segments = Segments(betas: seq<real>, checkpoints: seq<nat>, freshFrom: nat)

  lemma BudgetsIncrease(key: ScheduleKey)
    requires StagesOk(key.stages)
    ensures Ascending(Budgets(key))
    ensures forall i :: 0 <= i < |Budgets(key)| ==> (key.sweeps > 0 ==> Budgets(key)[i] > 0)
  {
  }

  /** A job's legs laid end to end. */
  function SegmentsOf(ladder: Ladder, key: ScheduleKey): Segments
    requires LadderOk(ladder) && StagesOk(key.stages)
  {
    BudgetsIncrease(key);
    var budgets := Budgets(key);
    var deep := FreshFrom(budgets);
    var continuing := Continuing(ladder, key, budgets[..deep]);
    Segments(continuing + FreshLegs(ladder, key, budgets[deep..]),
             budgets[..deep] + Ends(|continuing|, budgets[deep..]),
             deep)
  }

  // ----- What a segment schedule promises -----

  lemma {:induction false} EndsAt(start: nat, legs: seq<nat>, i: nat)
    requires i < |legs|
    ensures Ends(start, legs)[i] == start + Sum(legs[..i + 1])
    decreases |legs|
  {
    var shorter := legs[..|legs| - 1];
    if i < |legs| - 1 {
      EndsAt(start, shorter, i);
      assert shorter[..i + 1] == legs[..i + 1];
    } else {
      assert legs[..i + 1] == legs;
    }
  }

  lemma {:induction false} EndsIncrease(start: nat, legs: seq<nat>)
    requires forall k :: 0 <= k < |legs| ==> legs[k] > 0
    ensures forall i, j :: 0 <= i < j < |legs| ==> Ends(start, legs)[i] < Ends(start, legs)[j]
    ensures legs != [] ==> start < Ends(start, legs)[0] && Ends(start, legs)[|legs| - 1] == start + Sum(legs)
  {
    if legs != [] {
      EndsIncrease(start, legs[..|legs| - 1]);
    }
  }

  predicate Positive(s: seq<nat>) {
    forall k :: 0 <= k < |s| ==> s[k] > 0
  }

  lemma PositiveParts(s: seq<nat>, i: nat)
    requires Positive(s) && i <= |s|
    ensures Positive(s[..i]) && Positive(s[i..])
  {
  }

  lemma LayoutIncreases(head: seq<nat>, start: nat, legs: seq<nat>)
    requires Ascending(head) && |head| + |legs| > 0 && Positive(head) && Positive(legs)
    requires start == if head == [] then 0 else head[|head| - 1]
    ensures var layout := head + Ends(start, legs);
            && StrictlyIncreasing(layout) && layout[0] > 0
            && layout[|layout| - 1] == start + Sum(legs)
  {
    EndsIncrease(start, legs);
    var layout := head + Ends(start, legs);
    forall i, j | 0 <= i < j < |layout|
      ensures layout[i] < layout[j]
    {
      var split := |head|;
      if i < split <= j {
        assert layout[i] <= start < Ends(start, legs)[0];
        assert Ends(start, legs)[0] <= layout[j];
      }
    }
  }

  lemma StandardNonNegative(ladder: Ladder, key: ScheduleKey, sweeps: nat)
    requires LadderOk(ladder)
    ensures forall i :: 0 <= i < sweeps ==> Standard(ladder, key, sweeps)[i] >= 0.0
  {
    hide LadderOk, RungAt, RungCount, Hold;
    var per := Max(1, key.perBeta);
    var n := RungCount(sweeps, per);
    Rungs(ladder, key.hot, key.cold, n);
    forall i: nat | i < sweeps
      ensures Standard(ladder, key, sweeps)[i] >= 0.0
    {
      HoldAt(ladder(key.hot, key.cold, n), per, sweeps, i);
    }
  }

  ghost predicate NonNegative(betas: seq<real>) {
    forall i :: 0 <= i < |betas| ==> betas[i] >= 0.0
  }

  lemma {:induction false} ContinuingNonNegative(ladder: Ladder, key: ScheduleKey, legs: seq<nat>)
    requires LadderOk(ladder) && Ascending(legs)
    ensures NonNegative(Continuing(ladder, key, legs))
  {
    if legs != [] {
      var last := |legs| - 1;
      StandardNonNegative(ladder, key, legs[last]);
      if |legs| > 1 && Reheats(key) {
        ContinuingNonNegative(ladder, key, legs[..last]);
        Rungs(ladder, REHEAT_BETA, key.cold, legs[last] - legs[last - 1]);
      }
    }
  }

  lemma {:induction false} FreshNonNegative(ladder: Ladder, key: ScheduleKey, legs: seq<nat>)
    requires LadderOk(ladder)
    ensures NonNegative(FreshLegs(ladder, key, legs))
  {
    if legs != [] {
      FreshNonNegative(ladder, key, legs[..|legs| - 1]);
      StandardNonNegative(ladder, key, legs[|legs| - 1]);
    }
  }

  lemma SegmentsNonNegative(ladder: Ladder, key: ScheduleKey)
    requires LadderOk(ladder) && StagesOk(key.stages)
    ensures NonNegative(SegmentsOf(ladder, key).betas)
  {
    SegmentsShape(ladder, key);
    hide LadderOk, StagesOk, Continuing, FreshLegs, Budgets, FreshFrom, SegmentsOf, Ends, Sum, Ascending;
    var s, budgets := SegmentsOf(ladder, key), Budgets(key);
    ContinuingNonNegative(ladder, key, budgets[..s.freshFrom]);
    FreshNonNegative(ladder, key, budgets[s.freshFrom..]);
  }

  lemma SegmentsLayout(ladder: Ladder, key: ScheduleKey)
    requires LadderOk(ladder) && StagesOk(key.stages) && key.sweeps > 0
    ensures var s := SegmentsOf(ladder, key);
            && s.checkpoints != [] && s.checkpoints[0] > 0 && StrictlyIncreasing(s.checkpoints)
            && s.checkpoints[|s.checkpoints| - 1] == |s.betas|
  {
    BudgetsIncrease(key);
    SegmentsShape(ladder, key);
    assert Budgets(key) != [] && Positive(Budgets(key));
    hide LadderOk, StagesOk, Continuing, FreshLegs, Budgets, FreshFrom, SegmentsOf, Ends, Sum;
    hide StrictlyIncreasing, Ascending, Positive;
    var s, budgets := SegmentsOf(ladder, key), Budgets(key);
    var head, tail := budgets[..s.freshFrom], budgets[s.freshFrom..];
    PositiveParts(budgets, s.freshFrom);
    LayoutIncreases(head, |Continuing(ladder, key, head)|, tail);
  }

  /**
   * A schedule laid out from strictly increasing stages is valid exactly when
   * the job has a positive budget.
   */
  lemma SegmentsValid(ladder: Ladder, key: ScheduleKey)
    requires LadderOk(ladder) && StagesOk(key.stages)
    ensures var s := SegmentsOf(ladder, key); ValidSchedule(s.betas, s.checkpoints) <==> key.sweeps > 0
  {
    SegmentsNonNegative(ladder, key);
    if key.sweeps > 0 {
      SegmentsLayout(ladder, key);
    } else {
      NoBudgetNoSchedule(ladder, key);
    }
    hide LadderOk, StagesOk, SegmentsOf, StrictlyIncreasing;
  }

  lemma NoBudgetNoSchedule(ladder: Ladder, key: ScheduleKey)
    requires LadderOk(ladder) && StagesOk(key.stages) && key.sweeps == 0
    ensures SegmentsOf(ladder, key).betas == []
  {
    assert Budgets(key) == [0];
  }

  /** Continuing checkpoints sit at the stage sweep counts, and the fresh legs
      are the budgets above the reheat limit. */
  lemma SegmentsSplit(ladder: Ladder, key: ScheduleKey)
    requires LadderOk(ladder) && StagesOk(key.stages)
    ensures var budgets := Budgets(key);
            && budgets != [] && budgets[|budgets| - 1] == key.sweeps && |budgets| - 1 == StagesBelow(key.stages, key.sweeps)
            && forall k :: 0 <= k < |budgets| - 1 ==> budgets[k] == key.stages[k]
    ensures var s := SegmentsOf(ladder, key);
            && |s.checkpoints| == |Budgets(key)|
            && (forall k :: 0 <= k < |s.checkpoints| ==> (k < s.freshFrom <==> Budgets(key)[k] <= REHEAT_THROUGH))
            && (forall k :: 0 <= k < s.freshFrom ==> s.checkpoints[k] == Budgets(key)[k])
  {
    hide LadderOk, Continuing, FreshLegs, Ends;
    BudgetsIncrease(key);
    var budgets := Budgets(key);
    var deep := FreshFrom(budgets);
    forall k | deep <= k < |budgets|
      ensures budgets[k] > REHEAT_THROUGH
    {
      assert k == deep || budgets[deep] < budgets[k];
    }
  }

  lemma {:induction false} FreshLegAt(ladder: Ladder, key: ScheduleKey, legs: seq<nat>, k: nat)
    requires LadderOk(ladder) && k < |legs|
    ensures Sum(legs[..k]) + legs[k] == Sum(legs[..k + 1]) <= |FreshLegs(ladder, key, legs)|
    ensures FreshLegs(ladder, key, legs)[Sum(legs[..k])..Sum(legs[..k + 1])] == Standard(ladder, key, legs[k])
    decreases |legs|
  {
    hide LadderOk, Standard;
    var last := |legs| - 1;
    assert legs[..k + 1][..k] == legs[..k];
    if k < last {
      var shorter := legs[..last];
      FreshLegAt(ladder, key, shorter, k);
      assert shorter[..k] == legs[..k] && shorter[..k + 1] == legs[..k + 1];
    } else {
      assert legs[..k + 1] == legs;
    }
  }

  /** Schedule position where leg `leg` starts. */
  function LegStart(s: Segments, leg: nat): nat
    requires leg <= |s.checkpoints|
  {
    if leg == 0 then 0 else s.checkpoints[leg - 1]
  }

  /** Leg `leg` of `s` runs exactly `betas`. */
  predicate LegRuns(s: Segments, leg: nat, betas: seq<real>) {
    && leg < |s.checkpoints|
    && LegStart(s, leg) <= s.checkpoints[leg] <= |s.betas|
    && s.betas[LegStart(s, leg)..s.checkpoints[leg]] == betas
  }

  lemma FreshLegEnds(head: seq<nat>, start: nat, tail: seq<nat>, k: nat, s: Segments)
    requires s.checkpoints == head + Ends(start, tail) && k < |tail|
    requires start == if head == [] then 0 else head[|head| - 1]
    ensures LegStart(s, |head| + k) == start + Sum(tail[..k])
    ensures s.checkpoints[|head| + k] == start + Sum(tail[..k + 1])
  {
    assert Sum(tail[..0]) == 0;
    hide Ends, Sum;
    EndsAt(start, tail, k);
    if k > 0 {
      EndsAt(start, tail, k - 1);
    }
  }

  /** A leg whose ends lie in the second part runs a slice of that part. */
  lemma PlacedLegRuns(a: seq<real>, b: seq<real>, i: nat, j: nat, s: Segments, leg: nat)
    requires s.betas == a + b && i <= j <= |b| && leg < |s.checkpoints|
    requires LegStart(s, leg) == |a| + i && s.checkpoints[leg] == |a| + j
    ensures LegRuns(s, leg, b[i..j])
  {
    hide LegStart;
    SliceOfAppend(a, b, i, j);
  }

  lemma SegmentsShape(ladder: Ladder, key: ScheduleKey)
    requires LadderOk(ladder) && StagesOk(key.stages)
    ensures var s, budgets := SegmentsOf(ladder, key), Budgets(key);
            && s.freshFrom <= |budgets| == |s.checkpoints| && Ascending(budgets[..s.freshFrom])
            && var head, tail := budgets[..s.freshFrom], budgets[s.freshFrom..];
               && s.betas == Continuing(ladder, key, head) + FreshLegs(ladder, key, tail)
               && s.checkpoints == head + Ends(|Continuing(ladder, key, head)|, tail)
  {
    BudgetsIncrease(key);
    hide Continuing, FreshLegs, Ends, LadderOk, StagesOk, Budgets;
  }

  /** Every fresh leg is the complete standard anneal of its own budget. */
  lemma FreshLegIsStandard(ladder: Ladder, key: ScheduleKey, leg: nat)
    requires LadderOk(ladder) && StagesOk(key.stages)
    requires SegmentsOf(ladder, key).freshFrom <= leg < |SegmentsOf(ladder, key).checkpoints|
    ensures leg < |Budgets(key)|
    ensures LegRuns(SegmentsOf(ladder, key), leg, Standard(ladder, key, Budgets(key)[leg]))
  {
    SegmentsShape(ladder, key);
    hide LadderOk, Continuing, FreshLegs, Standard, Budgets, Ascending, StagesOk, FreshFrom, Ends, Sum, LegRuns, SegmentsOf;
    var s, budgets := SegmentsOf(ladder, key), Budgets(key);
    var head, tail := budgets[..s.freshFrom], budgets[s.freshFrom..];
    FreshLegAt(ladder, key, tail, leg - s.freshFrom);
    var k := leg - s.freshFrom;
    var start, end := Sum(tail[..k]), Sum(tail[..k + 1]);
    FreshLegEnds(head, |Continuing(ladder, key, head)|, tail, k, s);
    PlacedLegRuns(Continuing(ladder, key, head), FreshLegs(ladder, key, tail), start, end, s, leg);
  }

  lemma SliceOfAppend(a: seq<real>, b: seq<real>, i: nat, j: nat)
    requires i <= j <= |b|
    ensures (a + b)[|a| + i..|a| + j] == b[i..j]
  {
  }

  // ----- Building one -----

  lemma HoldRung(rungs: seq<real>, per: nat, rung: nat, extra: nat)
    requires rungs != [] && per > 0 && rung < |rungs| && 0 < extra <= per
    ensures var n := SweepsBefore(rung, per) + extra;
            Hold(rungs, per, n) == Hold(rungs, per, n - 1) + [rungs[rung]]
  {
    DivOf(rung, per, extra - 1);
  }

  lemma HoldNext(rungs: seq<real>, per: nat, n: nat)
    requires rungs != [] && per > 0
    ensures Hold(rungs, per, 0) == []
    ensures Hold(rungs, per, n + 1) == Hold(rungs, per, n) + [rungs[Min(RungAt(n, per), |rungs| - 1)]]
  {
  }

  lemma MulLe(a: nat, b: nat, c: nat)
    ensures a <= b ==> a * c <= b * c
  {
  }

  lemma DivOf(q: nat, d: nat, r: nat)
    requires r < d
    ensures RungAt(q * d + r, d) == q
  {
    var x := (q * d + r) / d;
    assert q * d + r == x * d + (q * d + r) % d;
    MulLe(x + 1, q, d);
    MulLe(q + 1, x, d);
  }

  /** Append a complete anneal of `sweeps` sweeps, rung by rung. */
  method AppendStandard(ladder: Ladder, key: ScheduleKey, schedule: seq<real>, sweeps: nat) returns (out: seq<real>)
    requires LadderOk(ladder)
    ensures out == schedule + Standard(ladder, key, sweeps)
  {
    hide LadderOk, RungAt, RungCount, SweepsBefore, Hold;
    NextRung(0, Max(1, key.perBeta));
    var per := Max(1, key.perBeta);
    var n := RungCount(sweeps, per);
    Rungs(ladder, key.hot, key.cold, n);
    var rungs := ladder(key.hot, key.cold, n);
    var end := |schedule| + sweeps;
    out := schedule;
    assert out == schedule + Hold(rungs, per, 0);
    var rung := 0;
    while rung < n
      invariant rung <= n && |out| <= end
      invariant |out| == |schedule| + Min(SweepsBefore(rung, per), sweeps)
      invariant out == schedule + Hold(rungs, per, |out| - |schedule|)
    {
      var repeats := Min(per, end - |out|);
      var start := |out| - |schedule|;
      NextRung(rung, per);
      assert repeats > 0 ==> start == SweepsBefore(rung, per);
      var extra := 0;
      while extra < repeats
        invariant extra <= repeats && |out| == |schedule| + start + extra
        invariant out == schedule + Hold(rungs, per, start + extra)
      {
        HoldRung(rungs, per, rung, extra + 1);
        out := out + [rungs[rung]];
        extra := extra + 1;
      }
      rung := rung + 1;
    }
    while |out| < end
      invariant |schedule| <= |out| <= end
      invariant |out| < end ==> SweepsBefore(n, per) <= |out| - |schedule|
      invariant out == schedule + Hold(rungs, per, |out| - |schedule|)
    {
      LastRung(|out| - |schedule|, per, n);
      HoldNext(rungs, per, |out| - |schedule|);
      out := out + [rungs[n - 1]];
    }
  }

  lemma LastRung(i: nat, per: nat, n: nat)
    requires per > 0 && n > 0 && SweepsBefore(n, per) <= i
    ensures RungAt(i, per) >= n
  {
    MulLe(i / per + 1, n, per);
  }

  /** The continuing legs, one reheat at a time. */
  method BuildContinuing(ladder: Ladder, key: ScheduleKey, legs: seq<nat>) returns (schedule: seq<real>)
    requires LadderOk(ladder) && Ascending(legs) && legs != []
    ensures schedule == Continuing(ladder, key, legs)
  {
    hide LadderOk, Standard;
    if key.hot < REHEAT_BETA && REHEAT_BETA < key.cold {
      schedule := AppendStandard(ladder, key, [], legs[0]);
      var i := 1;
      assert legs[..1] == [legs[0]];
      while i < |legs|
        invariant 1 <= i <= |legs| && Ascending(legs[..i])
        invariant schedule == Continuing(ladder, key, legs[..i])
      {
        assert legs[..i + 1][..i] == legs[..i];
        schedule := schedule + ladder(REHEAT_BETA, key.cold, legs[i] - legs[i - 1]);
        i := i + 1;
      }
      assert legs[..i] == legs;
    } else {
      schedule := AppendStandard(ladder, key, [], legs[|legs| - 1]);
    }
  }

  /** Append the fresh legs, with a checkpoint where each one ends. */
  method AppendFresh(ladder: Ladder, key: ScheduleKey, head: seq<real>, before: seq<nat>, legs: seq<nat>)
    returns (schedule: seq<real>, checkpoints: seq<nat>)
    requires LadderOk(ladder)
    ensures schedule == head + FreshLegs(ladder, key, legs)
    ensures checkpoints == before + Ends(|head|, legs)
  {
    hide LadderOk, Standard;
    schedule, checkpoints := head, before;
    var i := 0;
    while i < |legs|
      invariant i <= |legs|
      invariant schedule == head + FreshLegs(ladder, key, legs[..i])
      invariant checkpoints == before + Ends(|head|, legs[..i])
    {
      assert legs[..i + 1][..i] == legs[..i];
      schedule := AppendStandard(ladder, key, schedule, legs[i]);
      checkpoints := checkpoints + [|schedule|];
      i := i + 1;
    }
    assert legs[..i] == legs;
  }

  /** A job's legs laid end to end, as the source builds them. */
  method SegmentSchedule(ladder: Ladder, key: ScheduleKey) returns (s: Segments)
    requires LadderOk(ladder) && StagesOk(key.stages)
    ensures s == SegmentsOf(ladder, key)
  {
    BudgetsIncrease(key);
    hide LadderOk, StagesOk, Continuing, FreshLegs, Ends, Budgets, FreshFrom;
    var budgets := Budgets(key);
    var deep := FreshFrom(budgets);
    var continuing := budgets[..deep];
    var schedule: seq<real>, checkpoints: seq<nat> := [], [];
    if deep > 0 {
      schedule := BuildContinuing(ladder, key, continuing);
      checkpoints := continuing;
    }
    schedule, checkpoints := AppendFresh(ladder, key, schedule, checkpoints, budgets[deep..]);
    s := Segments(schedule, checkpoints, deep);
  }

  /**
   * The last validated schedule, shared by the preparation workers. A hit
   * hands back the same table, so a slot that holds it can skip the upload.
   */
  class ScheduleCache {
    const ladder: Ladder
    var key: Option<ScheduleKey>
    var table: Option<BetaTable>
    var checkpoints: seq<nat>
    var freshFrom: nat

    ghost predicate Valid()
      reads this
    {
      && LadderOk(ladder)
      && (key.Some? ==>
            && StagesOk(key.value.stages) && table.Some?
            && Segments(table.value.betas, checkpoints, freshFrom) == SegmentsOf(ladder, key.value)
            && ValidSchedule(table.value.betas, checkpoints))
    }

    constructor (ladder: Ladder)
      requires LadderOk(ladder)
      ensures Valid() && this.ladder == ladder
    {
      this.ladder := ladder;
      key, table, checkpoints, freshFrom := None, None, [], 0;
    }

    /**
     * The schedule for `wanted`, from the cache or built. It is the one
     * `wanted` alone determines, whatever was cached; only a job without a
     * budget is refused, and a refusal leaves the cache as it was.
     */
    method Prepare(wanted: ScheduleKey) returns (prepared: Option<(BetaTable, seq<nat>, nat)>)
      requires Valid() && StagesOk(wanted.stages)
      modifies this
      ensures Valid()
      ensures prepared.Some? <==> wanted.sweeps > 0
      ensures prepared.Some? ==>
                && Segments(prepared.value.0.betas, prepared.value.1, prepared.value.2) == SegmentsOf(ladder, wanted)
                && ValidSchedule(prepared.value.0.betas, prepared.value.1)
                && key == Some(wanted) && table == Some(prepared.value.0)
      ensures old(key) == Some(wanted) ==> table == old(table)
      ensures prepared.None? ==> key == old(key) && table == old(table)
    {
      if key == Some(wanted) {
        SegmentsValid(ladder, wanted);
        return Some((table.value, checkpoints, freshFrom));
      }
      var s := SegmentSchedule(ladder, wanted);
      SegmentsValid(ladder, wanted);
      if wanted.sweeps == 0 {
        return None;
      }
      var built := new BetaTable(s.betas);
      key, table, checkpoints, freshFrom := Some(wanted), Some(built), s.checkpoints, s.freshFrom;
      prepared := Some((built, checkpoints, freshFrom));
    }
  }
}
