/**
 * The resident runner (src/resident.rs): units flow from two inputs through
 * preparation and a held place into two alternating pools, and leave by exactly
 * one answer. Between any two of its steps the environment may offer units,
 * abandon them, close either end, or change what the device and clocks say.
 */
module Residents {
  import opened Cascade
  import opened Counts
  import opened Harvests
  import opened Preparations
  import opened Schedules
  import opened Tracks
  import opened Wrappers

  /** What is prepared for a unit: its laid-out schedule, the full-budget
      fallback, or an error. */
  datatype Data = Laid(p: Prepared) | Fallback | Broken

  datatype Ready = Ready(unit: Unit, data: Data)

  /** Where a unit's reads came from: its slot in a pool after what the device
      said, the fallback that ran it alone and how that went, or nowhere, as the
      unit has no nodes. */
  datatype Delivery = FromSlot(unit: Unit, pool: Pool, say: Say) | RunAlone(unit: Unit, oracle: Oracle) | NoNodes(unit: Unit)

  /** The unit's slot was to be read back, its fallback did not fail, or it is
      empty. */
  ghost predicate Vouched(d: Delivery) {
    match d
    case FromSlot(u, pool, say) => ReadOff(pool, say, u)
    case RunAlone(_, oracle) => !oracle.fallbackFault && !oracle.fallbackFails
    case NoNodes(u) => u.empty
  }

  /** What configuration, the device and sensors say at the moment. */
  datatype Oracle = Oracle(
    settings: Settings, window: bool, gated: bool, fallback: bool, broken: bool, say: Say,
    fits: bool, rebuildOk: bool, capacity: nat, scaled: nat, fallbackFault: bool, fallbackFails: bool, commitOk: bool, matches: bool)

  datatype Env = Env(jobs: seq<Unit>, jobsClosed: bool, salts: seq<Unit>, outClosed: bool, gone: set<Unit>, oracle: Oracle)

  datatype Move = OfferJob(unit: Unit) | OfferSalt(unit: Unit) | CloseJobs | CloseOut | Abandon(unit: Unit) | Ask(oracle: Oracle)

  function Moved(v: Env, m: Move): Env {
    match m
    case OfferJob(u) => if v.jobsClosed || u.salt then v else v.(jobs := v.jobs + [u])
    case OfferSalt(u) => if u.salt then v.(salts := v.salts + [u]) else v
    case CloseJobs => v.(jobsClosed := true)
    case CloseOut => v.(outClosed := true)
    case Abandon(u) => v.(gone := v.gone + {u})
    case Ask(oracle) => v.(oracle := oracle)
  }

  /** Jobs arrive while their input is open, and salts always, each in its own
      input. */
  lemma OffersArrive(v: Env, m: Move)
    ensures Moved(v, m).jobs == v.jobs + if m.OfferJob? && !m.unit.salt && !v.jobsClosed then [m.unit] else []
    ensures Moved(v, m).salts == v.salts + if m.OfferSalt? && m.unit.salt then [m.unit] else []
    ensures Moved(v, m).gone == v.gone + if m.Abandon? then {m.unit} else {}
    ensures Moved(v, m).jobsClosed <==> v.jobsClosed || m.CloseJobs?
    ensures Moved(v, m).outClosed <==> v.outClosed || m.CloseOut?
    ensures Moved(v, m).oracle == if m.Ask? then m.oracle else v.oracle
  {
  }

  function MovedAll(v: Env, moves: seq<Move>): Env {
    if moves == [] then v else Moved(MovedAll(v, moves[..|moves| - 1]), moves[|moves| - 1])
  }

  datatype Pools = Pools(a: Pool, b: Pool) {
    function Get(turn: nat): Pool { if turn == 0 then a else b }

    function Set(turn: nat, p: Pool): Pools { if turn == 0 then Pools(p, b) else Pools(a, p) }
  }

  datatype State = State(
    env: Env, control: Control<nat>, pools: Option<Pools>, turn: nat,
    queue: seq<(Unit, Settings)>, pending: Option<Ready>, eof: bool, preferSalt: bool, config: Settings, fault: bool,
    accepted: seq<Unit>, answers: seq<Answer>, log: seq<Offer>, delivered: seq<Delivery>)

  function Queued(queue: seq<(Unit, Settings)>): (units: seq<Unit>)
    ensures |units| == |queue|
  {
    seq(|queue|, i requires 0 <= i < |queue| => queue[i].0)
  }

  function Held(pending: Option<Ready>): seq<Unit> {
    if pending.Some? then [pending.value.unit] else []
  }

  function LiveIn(pools: Option<Pools>, u: Unit): nat {
    if pools.None? then 0 else Count(LiveUnits(pools.value.a.live), u) + Count(LiveUnits(pools.value.b.live), u)
  }

  /** An accepted unit is answered, in preparation, held, or live. */
  predicate ConservedAt(s: State, u: Unit) {
    Count(s.accepted, u)
    == Count(UnitsOf(s.answers), u) + Count(Queued(s.queue), u) + Count(Held(s.pending), u) + LiveIn(s.pools, u)
  }

  ghost predicate Conserved(s: State) {
    forall u: Unit :: ConservedAt(s, u)
  }

  /** Valid settings that agree on open gates, where these never change. */
  predicate Steady(settings: Settings, open: Option<bool>) {
    settings.Valid() && (open.Some? ==> settings.openGates == open.value)
  }

  predicate SettingsHold(s: State, open: Option<bool>) {
    && s.control.Ok() && Steady(s.control.settings, open) && Steady(s.config, open)
    && Steady(s.env.oracle.settings, open)
    && (forall i :: 0 <= i < |s.queue| ==> Steady(s.queue[i].1, open))
    && (s.pending.Some? && s.pending.value.data.Laid? ==>
          && Steady(s.pending.value.data.p.settings, open)
          && s.pending.value.data.p.screen == s.pending.value.unit.salt)
  }

  /** Both pools' slots keep step with their tickets. */
  predicate PoolsInStep(s: State) {
    s.pools.Some? ==> InStep(s.control, s.pools.value.a) && InStep(s.control, s.pools.value.b)
  }

  /** Only salts are ever screened out. */
  predicate SaltsScreened(answers: seq<Answer>) {
    forall i :: 0 <= i < |answers| && answers[i].outcome.Screened? ==> answers[i].unit.salt
  }

  /** Whoever was answered with reads had them delivered. */
  ghost predicate ReadsDelivered(answers: seq<Answer>, delivered: seq<Delivery>) {
    && (forall i :: 0 <= i < |answers| && answers[i].outcome == Reads ==> HasDelivery(delivered, answers[i].unit))
    && forall k :: 0 <= k < |delivered| ==> Vouched(delivered[k])
  }

  predicate HasDelivery(delivered: seq<Delivery>, u: Unit) {
    exists k :: 0 <= k < |delivered| && delivered[k].unit == u
  }

  /** What holds in every reachable state; slots and tickets are in step until a
      device fault. */
  ghost predicate Inv(s: State, open: Option<bool>) {
    && Conserved(s) && SettingsHold(s, open) && SaltsScreened(s.answers) && Outranked(s.answers, s.log) && s.turn < 2
    && ReadsDelivered(s.answers, s.delivered)
    && (!s.fault ==> PoolsInStep(s)) && |s.queue| <= PREP_BOUND
    && (s.eof ==> s.env.jobsClosed && s.env.jobs == [])
  }

  // Moves of the environment.

  predicate SteadyMove(m: Move, open: Option<bool>) {
    m.Ask? ==> Steady(m.oracle.settings, open)
  }

  predicate SteadyMoves(moves: seq<Move>, open: Option<bool>) {
    forall i :: 0 <= i < |moves| ==> SteadyMove(moves[i], open)
  }

  /** Configurations are valid and, given a value, never switch open gates from it. */
  predicate SteadyScript(script: seq<seq<Move>>, open: Option<bool>) {
    forall k :: 0 <= k < |script| ==> SteadyMoves(script[k], open)
  }

  lemma {:induction false} MovesKeep(s: State, open: Option<bool>, moves: seq<Move>)
    requires Inv(s, open) && SteadyMoves(moves, open)
    ensures Inv(s.(env := MovedAll(s.env, moves)), open)
  {
    hide Inv, Moved, MovedAll;
    if moves == [] {
      MovedNone(s.env);
    } else {
      var last := |moves| - 1;
      MovesKeep(s, open, moves[..last]);
      MovedLast(s.env, moves);
      assert SteadyMove(moves[last], open);
      MoveKeeps(s.(env := MovedAll(s.env, moves[..last])), open, moves[last]);
    }
  }

  lemma MovedNone(v: Env)
    ensures MovedAll(v, []) == v
  {
  }

  lemma MoveKeeps(s: State, open: Option<bool>, m: Move)
    requires Inv(s, open) && SteadyMove(m, open)
    ensures Inv(s.(env := Moved(s.env, m)), open)
  {
    hide InStep, Outranked, Count, LiveIn, Queued, Held, UnitsOf, Control<nat>.Ok;
    var now := s.(env := Moved(s.env, m));
    forall u: Unit
      ensures ConservedAt(now, u)
    {
      assert ConservedAt(s, u);
    }
  }

  lemma MovedLast(v: Env, moves: seq<Move>)
    requires moves != []
    ensures MovedAll(v, moves) == Moved(MovedAll(v, moves[..|moves| - 1]), moves[|moves| - 1])
  {
  }

  // Steps of the runner.

  /** The chosen input's next unit handed to preparation. */
  function Submitted(s: State, choice: Choice): State
    requires choice == FromJobs ==> s.env.jobs != []
    requires choice == FromSalts ==> s.env.salts != []
  {
    match choice
    case FromJobs =>
      s.(env := s.env.(jobs := s.env.jobs[1..]), queue := s.queue + [(s.env.jobs[0], s.config)],
         accepted := s.accepted + [s.env.jobs[0]], preferSalt := true)
    case FromSalts =>
      s.(env := s.env.(salts := s.env.salts[1..]), queue := s.queue + [(s.env.salts[0], s.config)],
         accepted := s.accepted + [s.env.salts[0]], preferSalt := false)
    case Neither => s
  }

  /** What the workers made of a unit, under the settings it was submitted with.
      Only salts are laid out for screening. */
  function DataOf(u: Unit, settings: Settings, o: Oracle): Data {
    if o.broken || u.sweeps == 0 then Broken
    else if o.fallback then Fallback
    else Laid(Prepared(settings, o.gated, u.salt, u.sweeps))
  }

  /** A unit cannot be prepared without sweeps or when preparing it fails, and
      needs the fallback when the oracle says so; else it has a schedule under its
      own settings. */
  predicate MadeOf(e: (Unit, Settings), o: Oracle, data: Data) {
    && (data.Broken? <==> o.broken || e.0.sweeps == 0)
    && (data.Fallback? <==> o.fallback && !o.broken && e.0.sweeps != 0)
    && (data.Laid? ==>
          data.p.settings == e.1 && data.p.gated == o.gated && data.p.screen == e.0.salt && data.p.sweeps == e.0.sweeps)
  }

  function Taken(s: State): State
    requires s.queue != [] && s.pending.None?
  {
    var (u, settings) := s.queue[0];
    s.(queue := s.queue[1..], pending := Some(Ready(u, DataOf(u, settings, s.env.oracle))))
  }

  /** The held unit answered. */
  function Dismissed(s: State, outcome: Outcome): State
    requires s.pending.Some?
  {
    s.(pending := None, answers := s.answers + [Answer(s.pending.value.unit, outcome)])
  }

  function EmptyPool(capacity: nat): Pool {
    Pool(seq(Max(capacity, 1), _ => None), seq(Max(capacity, 1), _ => None), false)
  }

  function Occupied(p: Pool): nat {
    |LiveUnits(p.live)|
  }

  predicate AllEmpty(s: State) {
    s.pools.Some? ==> Occupied(s.pools.value.a) == 0 && Occupied(s.pools.value.b) == 0
  }

  /** The first empty slot, or the number of slots. */
  function FirstFree(board: Board): (n: nat)
    ensures n <= |board| && (forall s :: 0 <= s < n ==> board[s].Some?) && (n < |board| ==> board[n].None?)
  {
    if board == [] || board[0].None? then 0 else 1 + FirstFree(board[1..])
  }

  /** The held unit admitted to slot `n` of the pool whose turn it is. */
  function Placed(s: State, n: nat, c: Control<nat>, t: Ticket): State
    requires s.pools.Some? && s.pending.Some?
    requires n < |s.pools.value.Get(s.turn).board| == |s.pools.value.Get(s.turn).live|
  {
    var pool, u := s.pools.value.Get(s.turn), s.pending.value.unit;
    s.(control := c, pending := None,
       pools := Some(s.pools.value.Set(s.turn,
         pool.(board := pool.board[n := Some(Track(0, t.gates + 1, u.salt))], live := pool.live[n := Some(Live(u, t))]))))
  }

  lemma QueueAppend(queue: seq<(Unit, Settings)>, e: (Unit, Settings), u: Unit)
    ensures Count(Queued(queue + [e]), u) == Count(Queued(queue), u) + if e.0 == u then 1 else 0
  {
    assert Queued(queue + [e]) == Queued(queue) + [e.0];
  }

  lemma QueueHead(queue: seq<(Unit, Settings)>, u: Unit)
    requires queue != []
    ensures Count(Queued(queue), u) == Count(Queued(queue[1..]), u) + if queue[0].0 == u then 1 else 0
  {
    CountHead(Queued(queue), u);
    assert Queued(queue)[1..] == Queued(queue[1..]);
  }

  lemma HeldOne(r: Ready, u: Unit)
    ensures Count(Held(Some(r)), u) == (if r.unit == u then 1 else 0) && Count(Held(None), u) == 0
  {
  }

  lemma SubmittedConserved(s: State, now: State, u: Unit)
    requires Conserved(s) && now.queue == s.queue + [(u, s.config)] && now.accepted == s.accepted + [u]
    requires now.answers == s.answers && now.pending == s.pending && now.pools == s.pools
    ensures Conserved(now)
  {
    hide Count, Queued, Held, LiveIn, UnitsOf;
    forall x: Unit
      ensures ConservedAt(now, x)
    {
      assert ConservedAt(s, x);
      QueueAppend(s.queue, (u, s.config), x);
      CountAppend(s.accepted, u, x);
    }
  }

  lemma SubmittedKeeps(s: State, open: Option<bool>, choice: Choice)
    requires Inv(s, open) && |s.queue| < PREP_BOUND
    requires (choice == FromJobs ==> s.env.jobs != []) && (choice == FromSalts ==> s.env.salts != [])
    ensures Inv(Submitted(s, choice), open)
  {
    if choice == FromJobs {
      SubmittedConserved(s, Submitted(s, choice), s.env.jobs[0]);
    } else if choice == FromSalts {
      SubmittedConserved(s, Submitted(s, choice), s.env.salts[0]);
    }
    hide Conserved, InStep;
  }

  lemma TakenKeeps(s: State, open: Option<bool>)
    requires Inv(s, open) && s.queue != [] && s.pending.None?
    ensures Inv(Taken(s), open)
  {
    hide Count, Queued, Held, LiveIn, UnitsOf, InStep, Outranked, HasDelivery;
    forall u: Unit
      ensures ConservedAt(Taken(s), u)
    {
      assert ConservedAt(s, u);
      QueueHead(s.queue, u);
      HeldOne(Taken(s).pending.value, u);
    }
  }

  lemma DismissedKeeps(s: State, open: Option<bool>, outcome: Outcome)
    requires Inv(s, open) && s.pending.Some? && !outcome.Screened?
    requires outcome == Reads ==> HasDelivery(s.delivered, s.pending.value.unit)
    ensures Inv(Dismissed(s, outcome), open)
  {
    hide Count, Queued, Held, LiveIn, UnitsOf, InStep, Outranks, HasDelivery;
    forall u: Unit
      ensures ConservedAt(Dismissed(s, outcome), u)
    {
      assert ConservedAt(s, u);
      HeldOne(s.pending.value, u);
      UnitsAppend(s.answers, Answer(s.pending.value.unit, outcome), u);
    }
  }

  // Admission.

  lemma AdmittedKeeps(c: Control<nat>, p: Prepared, shape: nat)
    requires c.Ok()
    ensures Keeps(c, Admitted(c, p, shape).0)
  {
    hide NewPlan, StagesBelow, Configured, Planned, Current;
    var cur := Current(c, p);
    forall t: Ticket | c.Fits(t)
      ensures Planned(c, cur, shape).Fits(t)
    {
      PlannedOk(c, cur, shape, t);
    }
    PlannedOk(c, cur, shape, Ticket(0, 0, false, 0, 0, None, 0, 0));
    PlannedSettings(c, cur, shape);
  }

  lemma PlannedSettings(c: Control<nat>, p: Prepared, shape: nat)
    requires c.plan < |c.plans|
    ensures Planned(c, p, shape).settings == c.settings
  {
  }

  lemma EnteredKeeps(c: Control<nat>, round: nat)
    requires c.Ok()
    ensures Keeps(c, Entered(c, round)) && Entered(c, round).Ok()
  {
    forall t: Ticket | c.Fits(t)
      ensures Entered(c, round).Fits(t)
    {
      EnteredFits(c, round, t);
    }
  }

  lemma KeepsTransitive(c: Control<nat>, d: Control<nat>, e: Control<nat>)
    requires Keeps(c, d) && Keeps(d, e)
    ensures Keeps(c, e)
  {
  }

  /** Gates switched since the unit was prepared, leaving it more of them than
      the plan it is admitted under has stages. */
  predicate Overruns(c: Control<nat>, p: Prepared) {
    && Toggled(c, p)
    && StagesBelow(Current(c, p).StagesUsed(), p.sweeps) > Configured(c.settings.Effective(true).stages)
  }

  /** Otherwise, and so always while open gates are steady, the new ticket fits
      its plan; a stream job's ticket has no gates. */
  lemma TicketFits(c: Control<nat>, p: Prepared, shape: nat, open: Option<bool>)
    requires c.Ok() && Steady(c.settings, open) && Steady(p.settings, open)
    ensures var (d, t) := Admitted(c, p, shape);
            && (d.Fits(t) <==> !Overruns(c, p)) && (Overruns(c, p) ==> p.screen && open.None?)
            && t.stage == 0 && t.finishSweeps.None? && (!p.screen ==> t.gates == 0)
  {
    AdmittedFits(c, p, shape);
  }

  lemma PlacedInStep(c: Control<nat>, pool: Pool, n: nat, u: Unit, t: Ticket)
    requires InStep(c, pool) && n < |pool.board| && pool.board[n].None?
    requires c.Fits(t) && t.stage == 0 && (!u.salt ==> t.gates == 0)
    ensures InStep(c, pool.(board := pool.board[n := Some(Track(0, t.gates + 1, u.salt))],
                            live := pool.live[n := Some(Live(u, t))]))
  {
    hide Paired;
    assert Paired(c, Live(u, t), Track(0, t.gates + 1, u.salt)) by {
      PairedNew(c, u, t);
    }
  }

  lemma PairedNew(c: Control<nat>, u: Unit, t: Ticket)
    requires c.Fits(t) && (!u.salt ==> t.gates == 0)
    ensures Paired(c, Live(u, t), Track(0, t.gates + 1, u.salt))
  {
  }

  lemma PlacedConserved(s: State, n: nat, c: Control<nat>, t: Ticket)
    requires Conserved(s) && s.pools.Some? && s.pending.Some? && s.turn < 2
    requires var p := s.pools.value.Get(s.turn); n < |p.board| == |p.live| && p.live[n].None?
    ensures Conserved(Placed(s, n, c, t))
  {
    var u, pool := s.pending.value.unit, s.pools.value.Get(s.turn);
    hide Count, Queued, Held, LiveUnits, UnitsOf;
    forall x: Unit
      ensures ConservedAt(Placed(s, n, c, t), x)
    {
      assert ConservedAt(s, x);
      HeldOne(s.pending.value, x);
      LiveSet(pool.live, n, Some(Live(u, t)), x);
    }
  }

  lemma PlacedKeeps(s: State, open: Option<bool>, n: nat, c: Control<nat>, t: Ticket)
    requires Inv(s, open) && !s.fault && s.pools.Some? && s.pending.Some?
    requires Keeps(s.control, c) && c.Fits(t) && t.stage == 0 && (!s.pending.value.unit.salt ==> t.gates == 0)
    requires n < |s.pools.value.Get(s.turn).board| && s.pools.value.Get(s.turn).board[n].None?
    ensures |s.pools.value.Get(s.turn).board| == |s.pools.value.Get(s.turn).live|
    ensures Inv(Placed(s, n, c, t), open)
  {
    var pool := s.pools.value.Get(s.turn);
    assert InStep(s.control, pool);
    PlacedConserved(s, n, c, t);
    KeepsMatched(s.control, c, s.pools.value.a);
    KeepsMatched(s.control, c, s.pools.value.b);
    PlacedInStep(c, pool, n, s.pending.value.unit, t);
    hide Conserved, Paired, Matched;
  }

  /** A controller that keeps every ticket may replace the current one. */
  lemma ControlKeeps(s: State, open: Option<bool>, c: Control<nat>)
    requires Inv(s, open) && Keeps(s.control, c)
    ensures Inv(s.(control := c), open)
  {
    hide Count, Queued, Held, LiveIn, UnitsOf, Outranked;
    if s.pools.Some? && !s.fault {
      KeepsMatched(s.control, c, s.pools.value.a);
      KeepsMatched(s.control, c, s.pools.value.b);
    }
    forall u: Unit
      ensures ConservedAt(s.(control := c), u)
    {
      assert ConservedAt(s, u);
    }
  }

  /** New pools may take the place of empty ones. */
  lemma RebuiltKeeps(s: State, open: Option<bool>, capacity: nat)
    requires Inv(s, open) && AllEmpty(s)
    ensures Inv(s.(pools := Some(Pools(EmptyPool(capacity), EmptyPool(capacity)))), open)
  {
    var now := s.(pools := Some(Pools(EmptyPool(capacity), EmptyPool(capacity))));
    EmptyInStep(s.control, capacity);
    EmptyConserved(s, capacity);
    hide InStep, Conserved, EmptyPool, AllEmpty;
  }

  lemma EmptyConserved(s: State, capacity: nat)
    requires Conserved(s) && AllEmpty(s)
    ensures Conserved(s.(pools := Some(Pools(EmptyPool(capacity), EmptyPool(capacity)))))
  {
    var p := EmptyPool(capacity);
    NobodyLives(p.live);
    hide LiveUnits, Queued, Held, UnitsOf, EmptyPool;
    forall u: Unit
      ensures ConservedAt(s.(pools := Some(Pools(p, p))), u)
    {
      assert ConservedAt(s, u);
      assert s.pools.Some? ==> LiveUnits(s.pools.value.a.live) == [] && LiveUnits(s.pools.value.b.live) == [];
    }
  }

  lemma EmptyInStep(c: Control<nat>, capacity: nat)
    ensures InStep(c, EmptyPool(capacity))
  {
  }

  lemma {:induction false} NobodyLives(live: seq<Option<Live>>)
    requires forall s :: 0 <= s < |live| ==> live[s].None?
    ensures LiveUnits(live) == []
  {
    if live != [] {
      NobodyLives(live[..|live| - 1]);
    }
  }

  // The loop.

  /** Units yet to be taken. */
  function Left(s: State): nat {
    |s.env.jobs| + |s.env.salts| + |s.queue| + |Held(s.pending)|
  }

  /** Lets the environment act, as the script says. */
  method Act(s: State, ghost open: Option<bool>, script: seq<seq<Move>>, tick: nat) returns (r: State, next: nat)
    requires Inv(s, open) && SteadyScript(script, open) && tick <= |script|
    ensures Inv(r, open) && r == s.(env := r.env) && tick <= next <= |script|
    ensures if tick < |script| then next == tick + 1 && r.env == MovedAll(s.env, script[tick]) else r == s
  {
    r, next := s, tick;
    if tick < |script| {
      MovesKeep(s, open, script[tick]);
      r := s.(env := MovedAll(s.env, script[tick]));
      next := tick + 1;
    }
  }

  /** Units moved from the inputs to preparation, and nothing else. */
  ghost predicate Fed(s0: State, s: State) {
    && s.pools == s0.pools && s.pending == s0.pending && s.turn == s0.turn && s.fault == s0.fault
    && s.control == s0.control && s.config == s0.config && s.answers == s0.answers
    && s.log == s0.log && s.delivered == s0.delivered
    && s.env.oracle == s0.env.oracle && s.env.outClosed == s0.env.outClosed && s.env.jobsClosed == s0.env.jobsClosed
    && s.env.gone == s0.env.gone && Left(s) == Left(s0)
    && s0.queue <= s.queue && s.accepted == s0.accepted + Queued(s.queue[|s0.queue|..])
  }

  lemma FedMore(a: State, b: State, c: State)
    requires Fed(a, b) && Fed(b, c)
    ensures Fed(a, c)
  {
    var first, more := b.queue[|a.queue|..], c.queue[|b.queue|..];
    assert c.queue[|a.queue|..] == first + more;
    assert Queued(first + more) == Queued(first) + Queued(more);
  }

  /** Whether the next unit is a job: while salts wait too they take turns. */
  predicate JobNext(s: State) {
    s.env.jobs != [] && (!s.preferSalt || s.env.salts == [])
  }

  lemma FedOne(s0: State, s: State, choice: Choice)
    requires s == s0.(eof := s.eof)
    requires (choice == FromJobs ==> s.env.jobs != []) && (choice == FromSalts ==> s.env.salts != [])
    ensures Fed(s0, Submitted(s, choice))
  {
    var now := Submitted(s, choice);
    assert now.queue[|s0.queue|..] == if choice == Neither then [] else [now.queue[|s0.queue|]];
    assert Queued([]) == [];
    if choice != Neither {
      assert Queued([now.queue[|s0.queue|]]) == [now.queue[|s0.queue|].0];
    }
  }

  /** One unit from the input whose turn it is, if either has one. */
  method Feed(s0: State, ghost open: Option<bool>) returns (s: State, going: bool)
    requires Inv(s0, open) && |s0.queue| < PREP_BOUND
    ensures Inv(s, open) && Fed(s0, s)
    ensures if going then |s.queue| == |s0.queue| + 1 else s.env.jobs == [] && s.env.salts == []
    ensures going <==> s0.env.jobs != [] || s0.env.salts != []
    ensures s.eof <==> s0.eof || (s0.env.jobsClosed && s0.env.jobs == [] && (!s0.preferSalt || s0.env.salts == []))
    ensures going ==>
              && s.queue == s0.queue + [(if JobNext(s0) then s0.env.jobs[0] else s0.env.salts[0], s0.config)]
              && s.env.jobs == (if JobNext(s0) then s0.env.jobs[1..] else s0.env.jobs)
              && s.env.salts == (if JobNext(s0) then s0.env.salts else s0.env.salts[1..])
              && (s.preferSalt <==> JobNext(s0))
  {
    hide Inv, Choose, Queued, Fed;
    EofMeans(s0, open);
    ChooseFair(s0.preferSalt, s0.eof, |s0.env.jobs|, s0.env.jobsClosed, |s0.env.salts|);
    var (choice, over) := Choose(s0.preferSalt, s0.eof, |s0.env.jobs|, s0.env.jobsClosed, |s0.env.salts|);
    EofKeeps(s0, open, over);
    s := s0.(eof := over);
    SubmittedKeeps(s, open, choice);
    FedOne(s0, s, choice);
    s, going := Submitted(s, choice), choice != Neither;
  }

  /** Fills preparation up to its bound, alternating between the inputs. */
  method Fill(s0: State, ghost open: Option<bool>) returns (s: State)
    requires Inv(s0, open)
    ensures Inv(s, open) && Fed(s0, s)
    ensures |s.queue| == PREP_BOUND || (s.env.jobs == [] && s.env.salts == [] && (s0.env.jobsClosed ==> s.eof))
  {
    s := s0;
    EofMeans(s, open);
    hide Inv;
    var going := true;
    while |s.queue| < PREP_BOUND && going
      invariant Inv(s, open) && Fed(s0, s) && |s.queue| <= PREP_BOUND
      invariant going || (s.env.jobs == [] && s.env.salts == [] && (s0.env.jobsClosed ==> s.eof))
      decreases PREP_BOUND - |s.queue|, going
    {
      hide Fed;
      var more;
      more, going := Feed(s, open);
      FedMore(s0, s, more);
      s := more;
    }
  }

  lemma EofMeans(s: State, open: Option<bool>)
    requires Inv(s, open)
    ensures s.eof ==> s.env.jobs == []
    ensures |s.queue| <= PREP_BOUND
  {
  }

  lemma EofKeeps(s: State, open: Option<bool>, over: bool)
    requires Inv(s, open) && (over ==> s.eof || (s.env.jobsClosed && s.env.jobs == []))
    ensures Inv(s.(eof := over), open)
  {
    hide Count, Queued, Held, LiveIn, UnitsOf, InStep, Outranked, HasDelivery;
    forall u: Unit
      ensures ConservedAt(s.(eof := over), u)
    {
      assert ConservedAt(s, u);
    }
  }

  /** The run is left for good, or, with `Overrun`, what is modelled of it. */
  datatype End = Running | InputDone | OutputClosed | DeviceFault | NoWorkers | Overrun

  datatype Next = Onward | Pause | Stop(end: End)

  /** How a unit is refused: cancelled when nobody waits for it. */
  function Refusal(s: State, u: Unit): Outcome {
    if u in s.env.gone then Cancelled else Failed
  }

  /** Refuses the held unit. */
  function Rejected(s: State): State
    requires s.pending.Some?
  {
    Dismissed(s, Refusal(s, s.pending.value.unit))
  }

  /** Whether the held unit needs storage the pools do not have. */
  predicate NeedsPools(s: State) {
    s.pools.None? || !s.env.oracle.fits
  }

  /** A new ticket for the held unit and a slot for it. */
  predicate Entering(s: State, n: nat, t: Ticket) {
    && s.pools.Some? && s.pending.Some?
    && n < |s.pools.value.Get(s.turn).board| == |s.pools.value.Get(s.turn).live|
    && t.stage == 0 && t.finishSweeps.None? && (!s.pending.value.unit.salt ==> t.gates == 0)
  }

  /** The controller and the ticket that admitting the held unit gives: a salt's
      round is entered first. */
  function NewTicket(s: State, p: Prepared): (Control<nat>, Ticket)
    requires s.pending.Some? && s.control.plan < |s.control.plans|
  {
    var u := s.pending.value.unit;
    Admitted(if u.salt then Entered(s.control, u.round) else s.control, p, u.shape)
  }

  /** Where the held unit of a laid-out schedule would go, if the pool takes it. */
  predicate Roomy(s: State) {
    s.pools.Some? && s.env.oracle.matches && FirstFree(s.pools.value.Get(s.turn).board) < |s.pools.value.Get(s.turn).board|
  }

  /** The held unit would be admitted with more gates than its plan has stages. */
  predicate Unfit(s: State) {
    s.pending.Some? && s.pending.value.data.Laid? && Roomy(s) && Overruns(s.control, s.pending.value.data.p)
  }

  /** Nothing in flight on the pool whose turn it is: it takes calls. */
  predicate Landed(s: State) {
    s.pools.Some? ==> !s.pools.value.Get(s.turn).inFlight
  }

  /** The held unit of a laid-out schedule in the first free slot, under a new
      ticket; or refused; or left, as the ticket does not fit. */
  ghost predicate LaidPlaced(r: State, p: Prepared, s: State) {
    && r.pools.Some? && r.pending.Some? && r.control.plan < |r.control.plans|
    && var u, n, (c, t) := r.pending.value.unit, FirstFree(r.pools.value.Get(r.turn).board), NewTicket(r, p);
       if Unfit(r) then s == r
       else if Roomy(r) then Entering(r, n, t) && s == Placed(r, n, c, t)
       else
         s == r.(pending := None, control := c,
                 answers := r.answers + [Answer(u, if u in r.env.gone then Cancelled else Failed)])
  }

  /** Admits the held unit of a laid-out schedule to the pool whose turn it is,
      or rejects it. */
  method Place(s0: State, ghost open: Option<bool>, p: Prepared) returns (s: State)
    requires Inv(s0, open) && !s0.fault && s0.pools.Some? && s0.pending.Some? && s0.pending.value.data == Laid(p)
    requires Landed(s0)
    ensures Inv(s, open) && Landed(s) && LaidPlaced(s0, p, s) && !s.fault
    ensures s.queue == s0.queue && s.env == s0.env && s.turn == s0.turn && s.accepted == s0.accepted && s.config == s0.config
    ensures if Unfit(s0) then s == s0 && open.None? else s.pending.None? && s.pools.Some?
    ensures !Unfit(s0) && !Roomy(s0) ==> s.pools == s0.pools
  {
    hide Inv, Placed, FirstFree, Keeps, Overruns, Admitted, Entered;
    var c, t := IssueTicket(s0, open, p);
    PlaceReady(s0, open, p);
    var n := FirstFree(s0.pools.value.Get(s0.turn).board);
    if !Roomy(s0) {
      RejectedKeeps(s0, open, c);
      s := Rejected(s0.(control := c));
    } else if !c.Fits(t) {
      s := s0;
    } else {
      PlacedKeeps(s0, open, n, c, t);
      PlacedSame(s0, n, c, t);
      s := Placed(s0, n, c, t);
      assert !Unfit(s0);
      assert Entering(s0, n, t);
    }
  }

  /** A salt's round is entered first; then the controller issues the ticket. */
  method IssueTicket(s: State, ghost open: Option<bool>, p: Prepared) returns (c: Control<nat>, t: Ticket)
    requires Inv(s, open) && s.pending.Some? && s.pending.value.data == Laid(p)
    ensures s.control.plan < |s.control.plans| && (c, t) == NewTicket(s, p)
    ensures Keeps(s.control, c) && (c.Fits(t) <==> !Overruns(s.control, p))
    ensures Overruns(s.control, p) ==> open.None? && s.pending.value.unit.salt
    ensures t.stage == 0 && t.finishSweeps.None? && (!s.pending.value.unit.salt ==> t.gates == 0)
    ensures s.pending.value.unit.salt ==> c.round == Max(s.control.round, s.pending.value.unit.round) == t.round
  {
    var u, entered := s.pending.value.unit, s.control;
    PlaceReady(s, open, p);
    hide Inv;
    if u.salt {
      EnteredKeeps(s.control, u.round);
      entered := Entered(s.control, u.round);
    }
    AdmittedKeeps(entered, p, u.shape);
    TicketFits(entered, p, u.shape, open);
    AdmittedRound(entered, p, u.shape);
    assert Overruns(entered, p) == Overruns(s.control, p);
    hide Admitted, Overruns;
    c, t := Admitted(entered, p, u.shape).0, Admitted(entered, p, u.shape).1;
    KeepsTransitive(s.control, entered, c);
  }

  lemma AdmittedRound(c: Control<nat>, p: Prepared, shape: nat)
    requires c.plan < |c.plans|
    ensures Admitted(c, p, shape).0.round == c.round == Admitted(c, p, shape).1.round
  {
  }

  lemma PlaceReady(s: State, open: Option<bool>, p: Prepared)
    requires Inv(s, open) && s.pending.Some? && s.pending.value.data == Laid(p)
    ensures s.turn < 2 && s.control.Ok() && Steady(s.control.settings, open) && Steady(p.settings, open)
    ensures p.screen == s.pending.value.unit.salt
  {
  }

  lemma RejectedKeeps(s: State, open: Option<bool>, c: Control<nat>)
    requires Inv(s, open) && s.pending.Some? && Keeps(s.control, c)
    ensures Inv(Rejected(s.(control := c)), open)
  {
    ControlKeeps(s, open, c);
    DismissedKeeps(s.(control := c), open, Refusal(s, s.pending.value.unit));
  }

  lemma PlacedSame(s: State, n: nat, c: Control<nat>, t: Ticket)
    requires s.pools.Some? && s.pending.Some?
    requires n < |s.pools.value.Get(s.turn).board| == |s.pools.value.Get(s.turn).live|
    ensures var r := Placed(s, n, c, t);
            && r.answers == s.answers && r.accepted == s.accepted && r.turn == s.turn && r.env == s.env && r.config == s.config
            && r.queue == s.queue && r.pending.None? && r.pools.Some? && r.fault == s.fault && (Landed(s) ==> Landed(r))
  {
  }

  /** The held unit has to wait until the pools drain: for storage it fits, or to
      run alone. */
  predicate Waits(s: State) {
    && s.pending.Some? && s.pending.value.unit !in s.env.gone && !AllEmpty(s)
    && ((s.pending.value.data.Fallback? && !s.pending.value.unit.empty) || (s.pending.value.data.Laid? && NeedsPools(s)))
  }

  /** New pools for the held unit, both empty. */
  function Rebuilt(s: State): State {
    s.(pools := Some(Pools(EmptyPool(s.env.oracle.capacity), EmptyPool(s.env.oracle.capacity))))
  }

  /** What becomes of the unit held: answered, admitted, or kept until the pools
      drain. A fallback that faults stops the run, and what is modelled of it
      stops at a ticket that would not fit. The environment acts while a fallback
      runs. */
  method AdmitHeld(s0: State, ghost open: Option<bool>, empty: bool, script: seq<seq<Move>>, tick0: nat)
    returns (s: State, next: Next, tick: nat)
    requires Inv(s0, open) && !s0.fault && s0.pending.Some? && empty == AllEmpty(s0) && Landed(s0)
    requires SteadyScript(script, open) && tick0 <= |script|
    ensures Inv(s, open) && Landed(s) && tick0 <= tick <= |script|
    ensures s.queue == s0.queue && s.accepted == s0.accepted && s.turn == s0.turn && s.config == s0.config
    ensures tick > tick0 || s.env == s0.env
    ensures next == Onward ==> s.pending.None? && !s.fault
    ensures (next == Pause <==> Waits(s0)) && (next == Pause ==> s == s0)
    ensures next.Stop? ==> next.end == DeviceFault || next.end == Overrun
    ensures next == Stop(DeviceFault) <==> s.fault
    ensures next == Stop(Overrun) ==> Unfit(s) && open.None?
    ensures var u, data := s0.pending.value.unit, s0.pending.value.data;
            if u in s0.env.gone then next == Onward && Answers(s0, s, Cancelled)
            else if data.Broken? then next == Onward && Answers(s0, s, Failed)
            else if data.Fallback? && u.empty then
              next == Onward && Answers(s0.(delivered := s0.delivered + [NoNodes(u)]), s, Reads)
            else if !empty && (data.Fallback? || NeedsPools(s0)) then next == Pause
            else if data.Fallback? then
              FallbackRan(s0, s) && next == if s.env.oracle.fallbackFault then Stop(DeviceFault) else Onward
            else if NeedsPools(s0) && !s0.env.oracle.rebuildOk then next == Onward && Answers(s0, s, Failed)
            else
              var r := if NeedsPools(s0) then Rebuilt(s0) else s0;
              LaidPlaced(r, data.p, s) && (next == if Unfit(r) then Stop(Overrun) else Onward)
  {
    s, next, tick := s0, Onward, tick0;
    hide Inv, Unfit, Roomy, FirstFree, AllEmpty, Occupied, SteadyScript, LaidPlaced, FallbackRan;
    var u, o := s.pending.value.unit, s.env.oracle;
    if u in s.env.gone {
      s := Dismiss(s, open, Cancelled);
      return;
    }
    match s.pending.value.data
    case Broken =>
      s := Dismiss(s, open, Failed);
    case Fallback =>
      if u.empty {
        s := Deliver(s, open, NoNodes(u));
      } else if !empty {
        next := Pause;
      } else {
        s, tick := RunFallback(s, open, script, tick);
        if s.fault {
          next := Stop(DeviceFault);
        }
      }
    case Laid(p) =>
      if NeedsPools(s) {
        if !empty {
          next := Pause;
          return;
        }
        if !o.rebuildOk {
          s := Dismiss(s, open, Failed);
          return;
        }
        RebuiltKeeps(s, open, o.capacity);
        s := Rebuilt(s);
      }
      var unfit := Unfit(s);
      s := Place(s, open, p);
      if unfit {
        next := Stop(Overrun);
      }
  }

  /** The held unit answered with `outcome`, and nothing else. */
  ghost predicate Answers(s0: State, s: State, outcome: Outcome) {
    s0.pending.Some? && s == s0.(pending := None, answers := s0.answers + [Answer(s0.pending.value.unit, outcome)])
  }

  /** What a fallback run has left: the unit cancelled when nobody waits any more,
      failed when it failed, and else answered with its reads; a device failure is
      a fault whoever waits. */
  ghost predicate FallbackRan(s0: State, s: State) {
    && s0.pending.Some?
    && var u, o := s0.pending.value.unit, s.env.oracle;
       var r := s0.(env := s.env, fault := o.fallbackFault);
       if s.env.outClosed || u in s.env.gone then Answers(r, s, Cancelled)
       else if o.fallbackFault || o.fallbackFails then Answers(r, s, Failed)
       else Answers(r.(delivered := r.delivered + [RunAlone(u, o)]), s, Reads)
  }

  /** Runs the held unit alone, on the runner's own thread. */
  method RunFallback(s0: State, ghost open: Option<bool>, script: seq<seq<Move>>, tick0: nat) returns (s: State, tick: nat)
    requires Inv(s0, open) && !s0.fault && s0.pending.Some? && SteadyScript(script, open) && tick0 <= |script|
    ensures Inv(s, open) && FallbackRan(s0, s) && tick0 <= tick <= |script| && (tick > tick0 || s.env == s0.env)
    ensures s.queue == s0.queue && s.accepted == s0.accepted && s.turn == s0.turn && s.pending.None? && s.config == s0.config
    ensures s.pools == s0.pools && s.fault == s.env.oracle.fallbackFault
  {
    hide Inv, SteadyScript, MovedAll;
    s, tick := Act(s0, open, script, tick0);
    var u, fault := s.pending.value.unit, s.env.oracle.fallbackFault;
    if s.env.outClosed || u in s.env.gone {
      s := Dismiss(s, open, Cancelled);
    } else if fault || s.env.oracle.fallbackFails {
      s := Dismiss(s, open, Failed);
    } else {
      s := Deliver(s, open, RunAlone(u, s.env.oracle));
    }
    if fault {
      FaultKeeps(s, open);
      s := s.(fault := true);
    }
  }

  method Dismiss(s0: State, ghost open: Option<bool>, outcome: Outcome) returns (s: State)
    requires Inv(s0, open) && s0.pending.Some? && !outcome.Screened? && outcome != Reads
    ensures Inv(s, open) && Answers(s0, s, outcome) && (Landed(s0) ==> Landed(s))
  {
    hide Inv;
    DismissedKeeps(s0, open, outcome);
    s := Dismissed(s0, outcome);
  }

  /** The held unit answered with reads delivered. */
  method Deliver(s0: State, ghost open: Option<bool>, via: Delivery) returns (s: State)
    requires Inv(s0, open) && s0.pending.Some? && via.unit == s0.pending.value.unit && Vouched(via)
    ensures Inv(s, open) && Answers(s0.(delivered := s0.delivered + [via]), s, Reads) && (Landed(s0) ==> Landed(s))
  {
    hide Inv, HasDelivery;
    DeliveredKeeps(s0, open, [via]);
    s := s0.(delivered := s0.delivered + [via]);
    LastDelivered(s0.delivered, via);
    DismissedKeeps(s, open, Reads);
    s := Dismissed(s, Reads);
  }

  lemma LastDelivered(delivered: seq<Delivery>, via: Delivery)
    ensures HasDelivery(delivered + [via], via.unit)
  {
    assert (delivered + [via])[|delivered|] == via;
  }

  lemma MoreDelivered(answers: seq<Answer>, delivered: seq<Delivery>, more: seq<Delivery>)
    requires ReadsDelivered(answers, delivered)
    requires forall k :: 0 <= k < |more| ==> Vouched(more[k])
    ensures ReadsDelivered(answers, delivered + more)
  {
    hide Vouched;
    forall i | 0 <= i < |answers| && answers[i].outcome == Reads
      ensures HasDelivery(delivered + more, answers[i].unit)
    {
      var k :| 0 <= k < |delivered| && delivered[k].unit == answers[i].unit;
      assert (delivered + more)[k] == delivered[k];
    }
    hide HasDelivery;
  }

  lemma DeliveredKeeps(s: State, open: Option<bool>, more: seq<Delivery>)
    requires Inv(s, open) && forall k :: 0 <= k < |more| ==> Vouched(more[k])
    ensures Inv(s.(delivered := s.delivered + more), open)
  {
    hide Count, Queued, Held, LiveIn, UnitsOf, InStep, Outranked, ReadsDelivered;
    MoreDelivered(s.answers, s.delivered, more);
    forall u: Unit
      ensures ConservedAt(s.(delivered := s.delivered + more), u)
    {
      assert ConservedAt(s, u);
    }
  }

  lemma FaultKeeps(s: State, open: Option<bool>)
    requires Inv(s, open)
    ensures Inv(s.(fault := true), open)
  {
    hide Count, Queued, Held, LiveIn, UnitsOf, InStep, Outranked, HasDelivery;
    forall u: Unit
      ensures ConservedAt(s.(fault := true), u)
    {
      assert ConservedAt(s, u);
    }
  }

  /** Whether the pool whose turn it is has all the live slots it may. */
  predicate Full(s: State) {
    s.pools.Some? && s.turn < 2 && Occupied(s.pools.value.Get(s.turn)) >= s.env.oracle.scaled
  }

  /** Why the loop stopped, read off the state it stopped in. */
  predicate EndMeans(s: State, end: End) {
    && (s.fault <==> end == DeviceFault)
    && (end == InputDone ==> s.eof && s.pending.None? && s.queue == [] && AllEmpty(s))
    && (end == OutputClosed ==> s.env.outClosed)
    && (end == Overrun ==> Unfit(s))
  }

  /** A unit in hand, held already or the oldest prepared, unless the pool is full
      or there is none. */
  method HoldNext(s0: State, ghost open: Option<bool>) returns (s: State, ready: bool, ghost filled: State)
    requires Inv(s0, open)
    ensures if s0.pending.Some? then ready && s == s0
            else
              && Fed(s0, filled) && (|filled.queue| == PREP_BOUND || (filled.env.jobs == [] && filled.env.salts == []))
              && (ready <==> !Full(filled) && filled.queue != [])
    ensures ready && s0.pending.None? ==>
              && s == filled.(queue := filled.queue[1..], pending := s.pending) && s.pending.Some?
              && s.pending.value.unit == filled.queue[0].0
              && MadeOf(filled.queue[0], s0.env.oracle, s.pending.value.data)
    ensures Inv(s, open) && s.env.oracle == s0.env.oracle && s.env.outClosed == s0.env.outClosed
    ensures s == s0.(env := s.env, pending := s.pending, queue := s.queue, eof := s.eof, preferSalt := s.preferSalt,
                     accepted := s.accepted)
    ensures Left(s) == Left(s0)
    ensures if ready then s.pending.Some?
            else s.pending.None? && (Full(s) || (s.queue == [] && s.env.jobs == [] && s.env.salts == []))
  {
    hide Inv, Full, Queued;
    s, ready, filled := s0, true, s0;
    if s.pending.None? {
      s := Fill(s, open);
      filled := s;
      FullMeans(s, open);
      if (s.pools.Some? && Occupied(s.pools.value.Get(s.turn)) >= s.env.oracle.scaled) || s.queue == [] {
        ready := false;
        return;
      }
      TakenKeeps(s, open);
      s := Taken(s);
    }
  }

  lemma FullMeans(s: State, open: Option<bool>)
    requires Inv(s, open)
    ensures Full(s) <==> s.pools.Some? && Occupied(s.pools.value.Get(s.turn)) >= s.env.oracle.scaled
  {
    hide Conserved, InStep, Occupied;
  }

  lemma LeftFalls(s: State, now: State)
    requires s.pending.Some? && now.pending.None? && now.queue == s.queue && now.env == s.env
    ensures Left(now) < Left(s)
  {
  }

  /** Why admission stopped: a unit has to wait, the pool is full, or there is
      nothing to admit. */
  predicate AdmittedAll(s: State) {
    Waits(s) || (s.pending.None? && (Full(s) || (s.queue == [] && s.env.jobs == [] && s.env.salts == [])))
  }

  /** Admits until the pool is full, nothing is ready, or a unit has to wait. */
  method AdmitAll(s0: State, ghost open: Option<bool>, script: seq<seq<Move>>, tick0: nat)
    returns (s: State, end: End, tick: nat)
    requires Inv(s0, open) && !s0.fault && SteadyScript(script, open) && tick0 <= |script| && Landed(s0)
    ensures Inv(s, open) && tick0 <= tick <= |script| && s.turn == s0.turn && Landed(s)
    ensures EndMeans(s, end) && end != InputDone && end != NoWorkers && (end == Overrun ==> open.None?)
    ensures s.config == s0.config && (tick0 < |script| ==> tick > tick0)
    ensures end == Running ==> AdmittedAll(s)
  {
    hide Inv, MovedAll, SteadyScript, Unfit, AllEmpty, Full, Waits, NeedsPools, Dismissed, Left, Fed, MadeOf, Answers, FallbackRan, LaidPlaced, Rebuilt;
    s, end, tick := s0, Running, tick0;
    while true
      invariant Inv(s, open) && !s.fault && tick0 <= tick <= |script| && s.turn == s0.turn && end == Running && Landed(s)
      invariant s.config == s0.config
      decreases |script| - tick, Left(s)
    {
      s, tick := Act(s, open, script, tick);
      if s.env.outClosed {
        end := OutputClosed;
        return;
      }
      var empty, ready := AllEmpty(s), true;
      ghost var acted := s;
      ghost var filled;
      s, ready, filled := HoldNext(s, open);
      if !ready {
        return;
      }
      SamePoolsEmpty(acted, s);
      ghost var held := s;
      var next;
      ghost var acting := tick;
      s, next, tick := AdmitHeld(s, open, empty, script, tick);
      match next
      case Onward =>
        if tick == acting {
          LeftFalls(held, s);
        }
      case Pause =>
        return;
      case Stop(why) =>
        end := why;
        return;
    }
  }

  lemma SamePoolsEmpty(s: State, now: State)
    requires now.pools == s.pools
    ensures AllEmpty(now) == AllEmpty(s)
  {
  }

  // A turn.

  /** The harvested pool and its answers, back in the state. */
  function HarvestedState(s: State, w: Work, log: seq<Offer>, read: seq<Unit>, failed: bool): State
    requires s.pools.Some?
  {
    var pool := s.pools.value.Get(s.turn);
    s.(control := w.control, pools := Some(s.pools.value.Set(s.turn, w.pool)), answers := s.answers + w.answers,
       log := log, delivered := s.delivered + FromSlots(read, pool, s.env.oracle.say), fault := s.fault || failed)
  }

  lemma HarvestedParts(s: State, w: Work, log: seq<Offer>, read: seq<Unit>, failed: bool)
    requires s.pools.Some? && s.turn < 2
    ensures var r := HarvestedState(s, w, log, read, failed);
            && r == s.(control := w.control, pools := r.pools, answers := s.answers + w.answers, log := log,
                       delivered := r.delivered, fault := s.fault || failed)
            && r.pools.Some? && r.pools.value.Get(s.turn) == w.pool
            && r.pools.value.Get(1 - s.turn) == s.pools.value.Get(1 - s.turn)
            && s.delivered <= r.delivered && forall i :: |s.delivered| <= i < |r.delivered| ==>
                 && r.delivered[i].FromSlot? && r.delivered[i].pool == s.pools.value.Get(s.turn)
                 && r.delivered[i].say == s.env.oracle.say
  {
  }

  function FromSlots(read: seq<Unit>, pool: Pool, say: Say): (delivered: seq<Delivery>)
    ensures |delivered| == |read|
  {
    seq(|read|, i requires 0 <= i < |read| => FromSlot(read[i], pool, say))
  }

  lemma ReadDelivered(s: State, w: Work, read: seq<Unit>, pool: Pool, say: Say)
    requires ReadsDelivered(s.answers, s.delivered) && ReadsAmong(w.answers, read)
    requires forall k :: 0 <= k < |read| ==> ReadOff(pool, say, read[k])
    ensures ReadsDelivered(s.answers + w.answers, s.delivered + FromSlots(read, pool, say))
  {
    hide ReadOff;
    MoreDelivered(s.answers, s.delivered, FromSlots(read, pool, say));
    forall i | 0 <= i < |w.answers| && w.answers[i].outcome == Reads
      ensures HasDelivery(s.delivered + FromSlots(read, pool, say), w.answers[i].unit)
    {
      var k :| 0 <= k < |read| && read[k] == w.answers[i].unit;
      assert (s.delivered + FromSlots(read, pool, say))[|s.delivered| + k].unit == read[k];
    }
    hide HasDelivery;
  }

  lemma HarvestedConserved(s: State, w: Work, log: seq<Offer>, read: seq<Unit>, failed: bool)
    requires Conserved(s) && s.pools.Some? && s.turn < 2 && Settles(s.pools.value.Get(s.turn), w)
    ensures Conserved(HarvestedState(s, w, log, read, failed))
  {
    hide Count, Queued, Held, LiveUnits;
    assert UnitsOf(s.answers + w.answers) == UnitsOf(s.answers) + UnitsOf(w.answers);
    forall u: Unit
      ensures ConservedAt(HarvestedState(s, w, log, read, failed), u)
    {
      assert ConservedAt(s, u);
      CountConcat(UnitsOf(s.answers), UnitsOf(w.answers), u);
      assert Count(LiveUnits(s.pools.value.Get(s.turn).live), u)
          == Count(LiveUnits(w.pool.live), u) + Count(UnitsOf(w.answers), u);
    }
  }

  lemma HarvestedKeeps(s: State, open: Option<bool>, w: Work, log: seq<Offer>, read: seq<Unit>, failed: bool,
                       gone: set<Unit>)
    requires Inv(s, open) && !s.fault && s.pools.Some? && Settles(s.pools.value.Get(s.turn), w)
    requires Keeps(s.control, w.control) && Honest(w.answers, gone) && (!failed ==> InStep(w.control, w.pool))
    requires s.log <= log && Outranked(w.answers, log) && ReadsAmong(w.answers, read)
    requires forall k :: 0 <= k < |read| ==> ReadOff(s.pools.value.Get(s.turn), s.env.oracle.say, read[k])
    ensures Inv(HarvestedState(s, w, log, read, failed), open)
  {
    HarvestedConserved(s, w, log, read, failed);
    KeepsMatched(s.control, w.control, s.pools.value.a);
    KeepsMatched(s.control, w.control, s.pools.value.b);
    OutrankedStays(s.answers, w.answers, s.log, log);
    ReadDelivered(s, w, read, s.pools.value.Get(s.turn), s.env.oracle.say);
    hide Conserved, InStep, Settles, Outranked, ReadsDelivered, ReadsAmong;
  }

  /** The pool whose turn it is harvested; a device failure is a fault. */
  method HarvestTurn(s0: State, ghost open: Option<bool>, script: seq<seq<Move>>, tick0: nat)
    returns (s: State, tick: nat, ghost abandoned: set<Unit>)
    requires Inv(s0, open) && !s0.fault && s0.pools.Some? && SteadyScript(script, open) && tick0 <= |script|
    ensures Inv(s, open) && tick0 <= tick <= |script| && s.pools.Some? && s.turn == s0.turn < 2
    ensures s.queue == s0.queue && s.pending == s0.pending && s.accepted == s0.accepted && s0.answers <= s.answers
    ensures s.config == s0.config && tick == Min(tick0 + 2, |script|)
    ensures s.pools.value.Get(1 - s.turn) == s0.pools.value.Get(1 - s.turn)
    ensures InStep(s0.control, s0.pools.value.Get(s0.turn)) && s0.log <= s.log
    ensures forall i :: |s0.log| <= i < |s.log| ==> Reports(s0.pools.value.Get(s0.turn), s.env.oracle.say, s.log[i])
    ensures s0.delivered <= s.delivered && forall i :: |s0.delivered| <= i < |s.delivered| ==>
              s.delivered[i].FromSlot? && s.delivered[i].pool == s0.pools.value.Get(s0.turn) && s.delivered[i].say == s.env.oracle.say
    ensures !s.fault ==> Landed(s)
    ensures !s.fault ==>
              forall k: nat :: k < |s0.pools.value.Get(s.turn).live| ==>
                Fated(s0.pools.value.Get(s.turn), abandoned, s.env.oracle.say, s.pools.value.Get(s.turn), k)
  {
    TurnReady(s0, open);
    hide Inv, MovedAll, SteadyScript, Fated, Reports, Outranked, ReadOff, ReadsAmong, HarvestedState, InStep, Settles;
    s, tick := Act(s0, open, script, tick0);
    var early := s.env.gone;
    abandoned := early;
    s, tick := Act(s, open, script, tick);
    TurnReady(s, open);
    var w, failed, log, read := Harvest(s.control, s.pools.value.Get(s.turn), early, s.env.gone, s.env.oracle.say, s.log);
    HarvestedKeeps(s, open, w, log, read, failed, early + s.env.gone);
    HarvestedParts(s, w, log, read, failed);
    s := HarvestedState(s, w, log, read, failed);
  }

  lemma TurnReady(s: State, open: Option<bool>)
    requires Inv(s, open) && !s.fault && s.pools.Some?
    ensures s.turn < 2 && s.control.Ok() && InStep(s.control, s.pools.value.Get(s.turn))
    ensures Steppable(s.pools.value.Get(s.turn).board)
  {
    InStepSteppable(s.control, s.pools.value.Get(s.turn));
  }

  /** New configuration from the window's end. */
  method Reconfigure(s0: State, ghost open: Option<bool>) returns (s: State)
    requires Inv(s0, open)
    ensures Inv(s, open) && s == s0.(config := s0.env.oracle.settings, control := Refreshed(s0.control, s0.env.oracle.settings))
  {
    var settings := s0.env.oracle.settings;
    s := s0.(config := settings, control := Refreshed(s0.control, settings));
    forall t: Ticket | s0.control.Fits(t)
      ensures s.control.Fits(t)
    {
      RefreshedOk(s0.control, settings, t);
    }
    RefreshedOk(s0.control, settings, Ticket(0, 0, false, 0, 0, None, 0, 0));
    if s.pools.Some? && !s.fault {
      FitsMatched(s0.control, s.control, s.pools.value.a);
      FitsMatched(s0.control, s.control, s.pools.value.b);
    }
    forall u: Unit
      ensures ConservedAt(s, u)
    {
      assert ConservedAt(s0, u);
    }
    hide ConservedAt, InStep, Refreshed;
  }

  /** One step submitted for every live slot of the pool. None of them is past
      its last checkpoint, so the pool never refuses it for that. */
  method CommitStep(s0: State, ghost open: Option<bool>) returns (s: State)
    requires Inv(s0, open) && !s0.fault && s0.pools.Some? && Landed(s0)
    ensures Inv(s, open) && s.pools.Some? && s.env == s0.env && s.pending == s0.pending && s.queue == s0.queue
    ensures s0.turn < 2 && Steppable(s0.pools.value.Get(s0.turn).board)
    ensures s == if !s0.env.oracle.commitOk then s0.(fault := true)
                 else if Occupied(s0.pools.value.Get(s0.turn)) > 0 then Flying(s0) else s0
  {
    TurnReady(s0, open);
    s := s0;
    var pool := s.pools.value.Get(s.turn);
    if !s.env.oracle.commitOk {
      FaultKeeps(s, open);
      s := s.(fault := true);
    } else if Occupied(pool) > 0 {
      FlyingKeeps(s, open);
      s := Flying(s);
    }
  }

  function Flying(s: State): State
    requires s.pools.Some?
  {
    s.(pools := Some(s.pools.value.Set(s.turn, s.pools.value.Get(s.turn).(inFlight := true))))
  }

  lemma FlyingKeeps(s: State, open: Option<bool>)
    requires Inv(s, open) && !s.fault && s.pools.Some?
    ensures Inv(Flying(s), open)
  {
    hide Count, LiveUnits, Queued, Held, UnitsOf, Paired;
    forall u: Unit
      ensures ConservedAt(Flying(s), u)
    {
      assert ConservedAt(s, u);
    }
    FlightInStep(s.control, s.pools.value.Get(s.turn));
    hide ConservedAt, InStep;
  }

  lemma FlightInStep(c: Control<nat>, p: Pool)
    requires InStep(c, p)
    ensures InStep(c, p.(inFlight := true))
  {
    hide Paired;
  }

  // The end of a run.

  /** What still holds while what is left is answered. */
  ghost predicate Closing(s: State) {
    Conserved(s) && SaltsScreened(s.answers)
  }

  function LiveGone(s: State, turn: nat, k: nat, outcome: Outcome): State
    requires s.pools.Some? && k < |s.pools.value.Get(turn).live| && s.pools.value.Get(turn).live[k].Some?
  {
    var pool := s.pools.value.Get(turn);
    s.(pools := Some(s.pools.value.Set(turn, pool.(live := pool.live[k := None]))),
       answers := s.answers + [Answer(pool.live[k].value.unit, outcome)])
  }

  lemma LiveGoneCounts(pools: Pools, turn: nat, k: nat, u: Unit)
    requires turn < 2 && k < |pools.Get(turn).live| && pools.Get(turn).live[k].Some?
    ensures var pool := pools.Get(turn);
            LiveIn(Some(pools.Set(turn, pool.(live := pool.live[k := None]))), u)
            + (if pool.live[k].value.unit == u then 1 else 0)
            == LiveIn(Some(pools), u)
  {
    LiveSet(pools.Get(turn).live, k, None, u);
    hide Count, LiveUnits;
  }

  lemma LiveGoneCloses(s: State, turn: nat, k: nat, outcome: Outcome)
    requires Closing(s) && turn < 2 && !outcome.Screened?
    requires s.pools.Some? && k < |s.pools.value.Get(turn).live| && s.pools.value.Get(turn).live[k].Some?
    ensures Closing(LiveGone(s, turn, k, outcome))
  {
    var unit := s.pools.value.Get(turn).live[k].value.unit;
    var now := LiveGone(s, turn, k, outcome);
    hide Count, LiveIn, Queued, Held, UnitsOf;
    forall u: Unit
      ensures ConservedAt(now, u)
    {
      assert ConservedAt(s, u);
      LiveGoneCounts(s.pools.value, turn, k, u);
      UnitsAppend(s.answers, Answer(unit, outcome), u);
    }
    hide ConservedAt;
  }

  /** The last answers of a pool's live units, by slot: cancelled, or failed when a
      fault ended the run and somebody still waits. */
  function LiveEnds(s: State, live: seq<Option<Live>>): seq<Answer> {
    var units := LiveUnits(live);
    seq(|units|, i requires 0 <= i < |units| => Answer(units[i], if s.fault && units[i] !in s.env.gone then Failed else Cancelled))
  }

  lemma LiveEndsMore(s: State, live: seq<Option<Live>>, k: nat)
    requires k < |live|
    ensures LiveEnds(s, live[..k + 1])
         == LiveEnds(s, live[..k])
            + if live[k].None? then []
              else [Answer(live[k].value.unit, if s.fault && live[k].value.unit !in s.env.gone then Failed else Cancelled)]
  {
    assert live[..k + 1][..k] == live[..k];
  }

  /** Every live unit of one pool answered, by slot. */
  method AnswerLive(s0: State, turn: nat) returns (s: State)
    requires Closing(s0) && s0.pools.Some? && turn < 2
    ensures Closing(s) && s == s0.(pools := s.pools, answers := s.answers) && s.pools.Some?
    ensures forall k :: 0 <= k < |s.pools.value.Get(turn).live| ==> s.pools.value.Get(turn).live[k].None?
    ensures s.pools.value.Get(1 - turn) == s0.pools.value.Get(1 - turn)
    ensures s.answers == s0.answers + LiveEnds(s0, s0.pools.value.Get(turn).live)
  {
    s := s0;
    hide Closing, LiveEnds;
    var live := s0.pools.value.Get(turn).live;
    NoEnds(s0);
    for k := 0 to |live|
      invariant Closing(s) && s == s0.(pools := s.pools, answers := s.answers) && s.pools.Some?
      invariant |s.pools.value.Get(turn).live| == |live| && s.pools.value.Get(turn).live[k..] == live[k..]
      invariant forall i :: 0 <= i < k ==> s.pools.value.Get(turn).live[i].None?
      invariant s.pools.value.Get(1 - turn) == s0.pools.value.Get(1 - turn)
      invariant s.answers == s0.answers + LiveEnds(s0, live[..k])
    {
      assert s.pools.value.Get(turn).live[k] == s.pools.value.Get(turn).live[k..][0] == live[k];
      LiveEndsMore(s0, live, k);
      if s.pools.value.Get(turn).live[k].Some? {
        var u := s.pools.value.Get(turn).live[k].value.unit;
        var outcome := if s.fault then Refusal(s, u) else Cancelled;
        LiveGoneCloses(s, turn, k, outcome);
        s := LiveGone(s, turn, k, outcome);
      }
    }
    assert live[..|live|] == live;
  }

  lemma NoEnds(s: State)
    ensures LiveEnds(s, []) == [] && forall live: seq<Option<Live>> :: live[..0] == []
  {
  }

  /** The next unit of the queue, the held place or an input, refused. */
  datatype Whereabouts = InQueue | InHand | InJobs | InSalts

  function Waiting(s: State, at: Whereabouts): seq<Unit> {
    match at
    case InQueue => Queued(s.queue)
    case InHand => Held(s.pending)
    case InJobs => s.env.jobs
    case InSalts => s.env.salts
  }

  function Refused(s: State, at: Whereabouts): State
    requires Waiting(s, at) != []
  {
    var u := Waiting(s, at)[0];
    var answered := s.(answers := s.answers + [Answer(u, Refusal(s, u))]);
    match at
    case InQueue => answered.(queue := s.queue[1..])
    case InHand => answered.(pending := None)
    case InJobs => answered.(env := s.env.(jobs := s.env.jobs[1..]), accepted := s.accepted + [u])
    case InSalts => answered.(env := s.env.(salts := s.env.salts[1..]), accepted := s.accepted + [u])
  }

  lemma QueueRefused(s: State)
    requires Closing(s) && s.queue != []
    ensures Closing(Refused(s, InQueue))
  {
    var u := s.queue[0].0;
    hide Count, LiveIn, UnitsOf, Held;
    forall x: Unit
      ensures ConservedAt(Refused(s, InQueue), x)
    {
      assert ConservedAt(s, x);
      UnitsAppend(s.answers, Answer(u, Refusal(s, u)), x);
      QueueHead(s.queue, x);
      hide Queued;
    }
    hide ConservedAt;
  }

  lemma HeldRefused(s: State)
    requires Closing(s) && s.pending.Some?
    ensures Closing(Refused(s, InHand))
  {
    var u := s.pending.value.unit;
    hide Count, LiveIn, UnitsOf, Queued;
    forall x: Unit
      ensures ConservedAt(Refused(s, InHand), x)
    {
      assert ConservedAt(s, x);
      UnitsAppend(s.answers, Answer(u, Refusal(s, u)), x);
      HeldOne(s.pending.value, x);
    }
    hide ConservedAt;
  }

  lemma InputRefused(s: State, u: Unit, v: Env, outcome: Outcome)
    requires Closing(s) && !outcome.Screened?
    ensures Closing(s.(env := v, answers := s.answers + [Answer(u, outcome)], accepted := s.accepted + [u]))
  {
    var now := s.(env := v, answers := s.answers + [Answer(u, outcome)], accepted := s.accepted + [u]);
    hide Count, LiveIn, UnitsOf, Held, Queued;
    forall x: Unit
      ensures ConservedAt(now, x)
    {
      assert ConservedAt(s, x);
      UnitsAppend(s.answers, Answer(u, outcome), x);
      CountAppend(s.accepted, u, x);
    }
    hide ConservedAt;
  }

  lemma RefusedCloses(s: State, at: Whereabouts)
    requires Closing(s) && Waiting(s, at) != []
    ensures Closing(Refused(s, at))
  {
    match at
    case InQueue => QueueRefused(s);
    case InHand => HeldRefused(s);
    case InJobs =>
      var u := s.env.jobs[0];
      InputRefused(s, u, s.env.(jobs := s.env.jobs[1..]), Refusal(s, u));
    case InSalts =>
      var u := s.env.salts[0];
      InputRefused(s, u, s.env.(salts := s.env.salts[1..]), Refusal(s, u));
  }

  /** Each unit refused, in order: failed while somebody waits for it. */
  function Refusals(s: State, units: seq<Unit>): seq<Answer> {
    seq(|units|, i requires 0 <= i < |units| => Answer(units[i], if units[i] in s.env.gone then Cancelled else Failed))
  }

  lemma RefusalsNone(s: State)
    ensures Refusals(s, []) == []
  {
  }

  /** Everything answered at the end, in order: the live units of both pools, what
      is in preparation, the unit held, and what either input still has. */
  function FinalAnswers(s: State): seq<Answer> {
    (if s.pools.None? then [] else LiveEnds(s, s.pools.value.a.live) + LiveEnds(s, s.pools.value.b.live))
    + Refusals(s, Queued(s.queue)) + Refusals(s, Held(s.pending)) + Refusals(s, s.env.jobs) + Refusals(s, s.env.salts)
  }

  lemma FinalsAre(s: State)
    ensures forall i :: 0 <= i < |FinalAnswers(s)| ==>
              FinalAnswers(s)[i].outcome == Cancelled || FinalAnswers(s)[i].outcome == Failed
  {
  }

  lemma RefusalsHead(s: State, units: seq<Unit>, n: nat)
    requires n < |units|
    ensures Refusals(s, units[..n + 1]) == Refusals(s, units[..n]) + [Answer(units[n], Refusal(s, units[n]))]
    ensures units[..n + 1] == units[..n] + [units[n]] && units[n..][1..] == units[n + 1..]
  {
  }

  /** Refuses everything waiting in one place, in order. */
  method RefuseAll(s0: State, at: Whereabouts) returns (s: State)
    requires Closing(s0)
    ensures Closing(s) && Waiting(s, at) == [] && s.pools == s0.pools
    ensures forall other :: other != at ==> Waiting(s, other) == Waiting(s0, other)
    ensures s.answers == s0.answers + Refusals(s0, Waiting(s0, at))
    ensures s.accepted == s0.accepted + if at.InJobs? || at.InSalts? then Waiting(s0, at) else []
    ensures s.env.gone == s0.env.gone && s.fault == s0.fault
  {
    s := s0;
    hide Closing, Emptying, Refused, Waiting, Refusals;
    ghost var n := 0;
    EmptyingNone(s0, at);
    while Waiting(s, at) != []
      invariant Closing(s) && Emptying(s0, s, at, n)
      decreases |Waiting(s, at)|
    {
      RefusedCloses(s, at);
      EmptyingStep(s0, s, at, n);
      RefusedWaiting(s, at);
      s := Refused(s, at);
      n := n + 1;
    }
    EmptyingAll(s0, s, at, n);
  }

  /** The first `n` units of one place refused, and nothing else changed. */
  ghost predicate Emptying(s0: State, s: State, at: Whereabouts, n: nat) {
    var all := Waiting(s0, at);
    && n <= |all| && Waiting(s, at) == all[n..] && s.answers == s0.answers + Refusals(s0, all[..n])
    && s.accepted == s0.accepted + (if at.InJobs? || at.InSalts? then all[..n] else [])
    && s.env.gone == s0.env.gone && s.fault == s0.fault && s.pools == s0.pools
    && forall other :: other != at ==> Waiting(s, other) == Waiting(s0, other)
  }

  lemma EmptyingNone(s: State, at: Whereabouts)
    ensures Emptying(s, s, at, 0)
  {
    var all := Waiting(s, at);
    assert all[..0] == [] && all[0..] == all;
    RefusalsNone(s);
  }

  lemma EmptyingStep(s0: State, s: State, at: Whereabouts, n: nat)
    requires Emptying(s0, s, at, n) && Waiting(s, at) != []
    ensures Emptying(s0, Refused(s, at), at, n + 1)
  {
    hide Waiting, Refused, Refusals, Refusal;
    var all := Waiting(s0, at);
    RefusalsHead(s0, all, n);
    RefusedWaiting(s, at);
    RefusedOne(s, at);
    SameRefusal(s0, s, all[n]);
    Regroup(s0.answers, Refusals(s0, all[..n]), Answer(all[n], Refusal(s0, all[n])));
    Regroup(s0.accepted, all[..n], all[n]);
  }

  lemma SameRefusal(s0: State, s: State, u: Unit)
    requires s.env.gone == s0.env.gone
    ensures Refusal(s, u) == Refusal(s0, u)
  {
  }

  lemma Regroup<T>(a: seq<T>, b: seq<T>, x: T)
    ensures (a + b) + [x] == a + (b + [x])
  {
  }

  lemma RefusedOne(s: State, at: Whereabouts)
    requires Waiting(s, at) != []
    ensures var r, u := Refused(s, at), Waiting(s, at)[0];
            && r.answers == s.answers + [Answer(u, Refusal(s, u))]
            && r.accepted == (if at.InJobs? || at.InSalts? then s.accepted + [u] else s.accepted)
            && r.env.gone == s.env.gone && r.fault == s.fault && r.pools == s.pools
  {
  }

  lemma EmptyingAll(s0: State, s: State, at: Whereabouts, n: nat)
    requires Emptying(s0, s, at, n) && Waiting(s, at) == []
    ensures s.answers == s0.answers + Refusals(s0, Waiting(s0, at)) && s.pools == s0.pools
    ensures s.accepted == s0.accepted + if at.InJobs? || at.InSalts? then Waiting(s0, at) else []
    ensures s.env.gone == s0.env.gone && s.fault == s0.fault
    ensures forall other :: other != at ==> Waiting(s, other) == Waiting(s0, other)
  {
    var all := Waiting(s0, at);
    hide Waiting, Refusals;
    assert n == |all| && all[..n] == all;
  }

  lemma RefusedWaiting(s: State, at: Whereabouts)
    requires Waiting(s, at) != []
    ensures Waiting(Refused(s, at), at) == Waiting(s, at)[1..]
    ensures forall other :: other != at ==> Waiting(Refused(s, at), other) == Waiting(s, other)
  {
    if at == InQueue {
      assert Queued(s.queue[1..]) == Queued(s.queue)[1..];
    }
  }

  /** The cleanup of every exit: live units, then prepared ones, the held one, and
      what either input still holds. */
  method Cleanup(s0: State) returns (s: State)
    requires Closing(s0)
    ensures Closing(s)
    ensures multiset(UnitsOf(s.answers)) == multiset(s.accepted)
    ensures s.accepted == s0.accepted + s0.env.jobs + s0.env.salts && s.env.jobs == [] && s.env.salts == []
    ensures s.answers == s0.answers + FinalAnswers(s0)
  {
    s := s0.(env := s0.env.(jobsClosed := true));
    ClosedJobs(s0);
    hide Closing, Refusals, LiveEnds, Waiting, FinalAnswers, Queued, Held;
    OnlyJobsClosed(s0, s);
    if s.pools.Some? {
      s := AnswerBoth(s);
    }
    ghost var live := s;
    s := RefuseRest(s0, s);
    PlacesSame(s0, live);
    FinalsMade(s0, live.answers, s.answers);
    NowhereWaiting(s);
    NothingLeft(s);
  }

  lemma FinalsMade(s: State, live: seq<Answer>, all: seq<Answer>)
    requires live == s.answers + if s.pools.None? then [] else LiveEnds(s, s.pools.value.a.live) + LiveEnds(s, s.pools.value.b.live)
    requires all == live + Refusals(s, Queued(s.queue)) + Refusals(s, Held(s.pending)) + Refusals(s, s.env.jobs)
                    + Refusals(s, s.env.salts)
    ensures all == s.answers + FinalAnswers(s)
  {
    hide LiveEnds, Refusals, Queued, Held;
  }

  lemma OnlyJobsClosed(s0: State, s: State)
    requires s == s0.(env := s0.env.(jobsClosed := true))
    ensures forall live: seq<Option<Live>> :: LiveEnds(s, live) == LiveEnds(s0, live)
  {
    SameEnds(s0, s);
  }

  lemma PlacesSame(s0: State, s: State)
    requires s.queue == s0.queue && s.pending == s0.pending && s.env.jobs == s0.env.jobs && s.env.salts == s0.env.salts
    ensures Waiting(s, InQueue) == Queued(s0.queue) && Waiting(s, InHand) == Held(s0.pending)
    ensures Waiting(s, InJobs) == s0.env.jobs && Waiting(s, InSalts) == s0.env.salts
  {
  }

  /** The four places emptied, in the source's order. */
  method RefuseRest(ghost start: State, s0: State) returns (s: State)
    requires Closing(s0) && s0.env.gone == start.env.gone && s0.fault == start.fault
    ensures Closing(s) && s.pools == s0.pools && forall at :: Waiting(s, at) == []
    ensures s.answers == s0.answers + Refusals(start, Waiting(s0, InQueue)) + Refusals(start, Waiting(s0, InHand))
                         + Refusals(start, Waiting(s0, InJobs)) + Refusals(start, Waiting(s0, InSalts))
    ensures s.accepted == s0.accepted + Waiting(s0, InJobs) + Waiting(s0, InSalts)
  {
    hide Closing, Refusals, Waiting;
    s := Refuse(start, s0, InQueue);
    s := Refuse(start, s, InHand);
    s := Refuse(start, s, InJobs);
    s := Refuse(start, s, InSalts);
    forall at ensures Waiting(s, at) == [] {
      match at
      case InQueue => case InHand => case InJobs => case InSalts =>
    }
  }

  lemma SameEnds(s0: State, s: State)
    requires s.env.gone == s0.env.gone && s.fault == s0.fault
    ensures forall live: seq<Option<Live>> :: LiveEnds(s, live) == LiveEnds(s0, live)
  {
  }

  lemma SameRefusals(s0: State, s: State, units: seq<Unit>)
    requires s.env.gone == s0.env.gone
    ensures Refusals(s, units) == Refusals(s0, units)
  {
  }

  lemma NowhereWaiting(s: State)
    requires forall at :: Waiting(s, at) == []
    ensures s.queue == [] && Held(s.pending) == [] && s.env.jobs == [] && s.env.salts == []
  {
    assert Waiting(s, InQueue) == [] && Waiting(s, InHand) == [] && Waiting(s, InJobs) == [] && Waiting(s, InSalts) == [];
  }

  /** Every live unit of both pools answered. */
  method AnswerBoth(s0: State) returns (s: State)
    requires Closing(s0) && s0.pools.Some?
    ensures Closing(s) && s == s0.(pools := s.pools, answers := s.answers) && s.pools.Some?
    ensures LiveUnits(s.pools.value.a.live) == [] && LiveUnits(s.pools.value.b.live) == []
    ensures s.answers == s0.answers + (LiveEnds(s0, s0.pools.value.a.live) + LiveEnds(s0, s0.pools.value.b.live))
  {
    hide Closing, LiveEnds;
    var first := AnswerLive(s0, 0);
    s := AnswerLive(first, 1);
    SameEnds(s0, first);
    assert s.pools.value.Get(0) == s.pools.value.a && s.pools.value.Get(1) == s.pools.value.b;
    NobodyLives(s.pools.value.a.live);
    NobodyLives(s.pools.value.b.live);
  }

  /** One place emptied on the way out from `start`. */
  method Refuse(ghost start: State, s0: State, at: Whereabouts) returns (s: State)
    requires Closing(s0) && s0.env.gone == start.env.gone && s0.fault == start.fault
    ensures Closing(s) && s.env.gone == start.env.gone && s.fault == start.fault && s.pools == s0.pools
    ensures s.answers == s0.answers + Refusals(start, Waiting(s0, at))
    ensures Waiting(s, at) == [] && forall other :: other != at ==> Waiting(s, other) == Waiting(s0, other)
    ensures s.accepted == if at.InJobs? || at.InSalts? then s0.accepted + Waiting(s0, at) else s0.accepted
  {
    hide Closing, Refusals;
    s := RefuseAll(s0, at);
    assert s0.accepted + [] == s0.accepted;
    SameRefusals(start, s0, Waiting(s0, at));
  }

  lemma ClosedJobs(s: State)
    requires Closing(s)
    ensures Closing(s.(env := s.env.(jobsClosed := true)))
  {
    forall u: Unit
      ensures ConservedAt(s.(env := s.env.(jobsClosed := true)), u)
    {
      assert ConservedAt(s, u);
    }
  }

  lemma NothingLeft(s: State)
    requires Closing(s) && s.queue == [] && Held(s.pending) == []
    requires s.pools.Some? ==> LiveUnits(s.pools.value.a.live) == [] && LiveUnits(s.pools.value.b.live) == []
    ensures multiset(UnitsOf(s.answers)) == multiset(s.accepted)
  {
    forall u: Unit
      ensures Count(UnitsOf(s.answers), u) == Count(s.accepted, u)
    {
      assert ConservedAt(s, u);
    }
    SameCounts(UnitsOf(s.answers), s.accepted);
  }

  function Initial(oracle: Oracle): State {
    State(Env([], false, [], false, {}, oracle), NewControl(oracle.settings), None, 0, [], None, false, true,
          oracle.settings, false, [], [], [], [])
  }

  /** The loop starts with the first pool's turn and salts preferred, nothing taken,
      prepared, held or answered, and no pools. */
  lemma StartsEmpty(oracle: Oracle)
    ensures var s := Initial(oracle);
            && s.turn == 0 && s.preferSalt && !s.eof && !s.fault && s.pools.None? && s.pending.None? && s.queue == []
            && s.config == s.control.settings == oracle.settings && !s.env.jobsClosed && !s.env.outClosed && s.env.gone == {}
            && s.env.jobs == s.env.salts == s.accepted == [] && s.answers == [] && s.log == [] && s.delivered == []
  {
  }

  lemma InitialInv(oracle: Oracle, open: Option<bool>)
    requires Steady(oracle.settings, open)
    ensures Inv(Initial(oracle), open)
  {
    NewPlanOk(oracle.settings);
    forall u: Unit
      ensures ConservedAt(Initial(oracle), u)
    {
      assert UnitsOf([]) == [] && Queued([]) == [];
    }
  }

  lemma InvCloses(s: State, open: Option<bool>)
    requires Inv(s, open)
    ensures Closing(s)
  {
  }

  lemma SteadyOrNot(s: State, open: Option<bool>)
    requires Inv(s, open)
    ensures Inv(s, None)
  {
    hide Conserved, InStep;
  }

  /** Where an input has ended and nothing is held, every accepted unit has had
      its answer already. */
  lemma DoneAnswered(s: State)
    requires Closing(s) && s.pending.None? && s.queue == [] && AllEmpty(s)
    ensures multiset(UnitsOf(s.answers)) == multiset(s.accepted)
  {
    NothingLeft(s);
  }

  /** The run, over any environment. Every state it passes through keeps the
      books and keeps slots in step with tickets, up to a ticket that does not
      fit, which steady open gates rule out. On every other way out each accepted
      unit has had exactly one answer, and the reason is that of the state `last`
      in which the loop stopped. */
  method Run(oracle: Oracle, workersOk: bool, script: seq<seq<Move>>)
    returns (s: State, end: End, tick: nat, ghost last: State)
    requires oracle.settings.Valid() && SteadyScript(script, None)
    ensures Inv(last, None) && EndMeans(last, end) && (end == NoWorkers <==> !workersOk)
    ensures SteadyScript(script, Some(oracle.settings.openGates)) ==> end != Overrun
    ensures end == Running || end == Overrun ==> s == last
    ensures end == Running ==> tick == |script|
    ensures end != Running && end != Overrun ==>
              && multiset(UnitsOf(s.answers)) == multiset(s.accepted)
              && s.accepted == last.accepted + last.env.jobs + last.env.salts && s.env.jobs == [] && s.env.salts == []
              && s.answers == last.answers + FinalAnswers(last)
    ensures end == NoWorkers ==> last.accepted == [] && tick == Min(1, |script|)
    ensures end == InputDone ==> multiset(UnitsOf(last.answers)) == multiset(last.accepted) && last.env.jobs == []
    ensures SaltsScreened(s.answers) && Outranked(s.answers, last.log) && ReadsDelivered(s.answers, last.delivered)
  {
    ghost var gates := Some(oracle.settings.openGates);
    ghost var open := if SteadyScript(script, gates) then gates else None;
    s, end, tick := Initial(oracle), Running, 0;
    InitialInv(oracle, open);
    hide Inv, MovedAll, SteadyScript, Closing, Unfit, FinalAnswers, Outranked, ReadsDelivered;
    if !workersOk {
      s, tick := Act(s, open, script, tick);
      end := NoWorkers;
    }
    while end == Running && tick < |script|
      invariant Inv(s, open) && tick <= |script| && EndMeans(s, end) && (end == Overrun ==> open.None?)
      invariant (end == NoWorkers <==> !workersOk) && (!workersOk ==> s.accepted == [] && tick == Min(1, |script|))
      decreases |script| - tick, end == Running
    {
      s, tick := Act(s, open, script, tick);
      ghost var filled, harvested, admitted;
      s, end, tick, filled, harvested, admitted := Turn(s, open, script, tick);
    }
    last := s;
    InvCloses(s, open);
    EofMeans(s, open);
    SteadyOrNot(s, open);
    InvOutranks(s, open);
    if end == InputDone {
      DoneAnswered(s);
    }
    if end != Running && end != Overrun {
      s := Cleanup(s);
      FinalsHonest(last, s);
    }
    ClosingHonest(s);
  }

  lemma InvOutranks(s: State, open: Option<bool>)
    requires Inv(s, open)
    ensures Outranked(s.answers, s.log) && ReadsDelivered(s.answers, s.delivered)
  {
  }

  /** The last answers screen nobody out and deliver no reads. */
  lemma FinalsHonest(last: State, s: State)
    requires Outranked(last.answers, last.log) && ReadsDelivered(last.answers, last.delivered)
    requires s.answers == last.answers + FinalAnswers(last)
    ensures Outranked(s.answers, last.log) && ReadsDelivered(s.answers, last.delivered)
  {
    FinalsAre(last);
    hide Outranks, FinalAnswers, HasDelivery, Vouched;
  }

  lemma ClosingHonest(s: State)
    requires Closing(s)
    ensures SaltsScreened(s.answers)
  {
  }

  /** One round of the loop: fill, harvest, admit, step, and change pools. */
  method Turn(s0: State, ghost open: Option<bool>, script: seq<seq<Move>>, tick0: nat)
    returns (s: State, end: End, tick: nat, ghost filled: State, ghost harvested: State, ghost admitted: State)
    requires Inv(s0, open) && !s0.fault && SteadyScript(script, open) && tick0 <= |script|
    ensures Inv(s, open) && tick0 <= tick <= |script|
    ensures EndMeans(s, end) && end != NoWorkers && (end == Overrun ==> open.None?)
    ensures s0.env.outClosed ==> end == OutputClosed && s == s0
    ensures !s0.env.outClosed ==>
              && Fed(s0, filled)
              && (|filled.queue| == PREP_BOUND || (filled.env.jobs == [] && filled.env.salts == []))
              && harvested.queue == filled.queue && harvested.pending == filled.pending
              && (s0.pools.None? ==> harvested == filled)
    ensures end == Running ==>
              && AdmittedAll(admitted) && s == admitted.(env := s.env, pools := s.pools, fault := s.fault, turn := s.turn)
              && !(AllEmpty(admitted) && admitted.eof && admitted.pending.None? && admitted.queue == [])
              && s.config == if s0.pools.Some? && harvested.env.oracle.window then harvested.env.oracle.settings else s0.config
    ensures end == Running ==>
              && s0.turn < 2 && s.turn == 1 - s0.turn
              && (s.pools.Some? && Occupied(s.pools.value.Get(s0.turn)) > 0 ==> s.pools.value.Get(s0.turn).inFlight)
  {
    s, end, tick, filled, harvested, admitted := s0, Running, tick0, s0, s0, s0;
    hide Inv, MovedAll, SteadyScript, Unfit, Fated, InStep, AllEmpty, Full, Occupied, Steppable, AdmittedAll, Refreshed;
    if s.env.outClosed {
      end := OutputClosed;
      return;
    }
    s := Fill(s, open);
    filled, harvested := s, s;
    if s.pools.Some? {
      ghost var abandoned;
      s, tick, abandoned := HarvestTurn(s, open, script, tick);
      harvested := s;
      if s.fault {
        end := DeviceFault;
        return;
      }
      if s.env.oracle.window {
        OracleSteady(s, open);
        s := Reconfigure(s, open);
      }
    }
    s, end, tick := AdmitAll(s, open, script, tick);
    admitted := s;
    if end != Running {
      return;
    }
    if AllEmpty(s) && s.eof && s.pending.None? && s.queue == [] {
      end := InputDone;
      return;
    }
    s, end, tick := StepAndSwap(s, open, script, tick);
  }

  /** The turn's last part: one step for the pool's live slots, and the other
      pool's turn. */
  method StepAndSwap(s0: State, ghost open: Option<bool>, script: seq<seq<Move>>, tick0: nat)
    returns (s: State, end: End, tick: nat)
    requires Inv(s0, open) && !s0.fault && SteadyScript(script, open) && tick0 <= |script| && Landed(s0)
    ensures Inv(s, open) && tick0 <= tick <= |script| && EndMeans(s, end)
    ensures end == Running || end == OutputClosed || end == DeviceFault
    ensures tick == if s0.pools.Some? then Min(tick0 + 1, |script|) else tick0
    ensures s == s0.(env := s.env, pools := s.pools, fault := s.fault, turn := s.turn)
    ensures end == Running ==>
              && s0.turn < 2 && s.turn == 1 - s0.turn
              && (s.pools.Some? && Occupied(s.pools.value.Get(s0.turn)) > 0 ==> s.pools.value.Get(s0.turn).inFlight)
  {
    s, end, tick := s0, Running, tick0;
    hide Inv, MovedAll, SteadyScript, Unfit, Occupied, AllEmpty, Steppable;
    if s.pools.Some? {
      s, tick := Act(s, open, script, tick);
      if s.env.outClosed {
        end := OutputClosed;
        return;
      }
      s := CommitStep(s, open);
      if s.fault {
        end := DeviceFault;
        return;
      }
    }
    TurnsKeep(s, open);
    s := s.(turn := 1 - s.turn);
  }

  lemma OracleSteady(s: State, open: Option<bool>)
    requires Inv(s, open)
    ensures Steady(s.env.oracle.settings, open)
  {
  }

  lemma TurnsKeep(s: State, open: Option<bool>)
    requires Inv(s, open)
    ensures s.turn < 2 && Inv(s.(turn := 1 - s.turn), open)
  {
    hide Count, Queued, Held, LiveIn, UnitsOf, InStep, Outranked, HasDelivery;
    var now := s.(turn := 1 - s.turn);
    forall u: Unit
      ensures ConservedAt(now, u)
    {
      assert ConservedAt(s, u);
    }
  }
}
