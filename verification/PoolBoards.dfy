/**
 * The runner's boards and a real slot pool (src/resident.rs over src/slots.rs).
 * Whatever sequence of calls a pool serves, its board after each is the one the
 * runner keeps, and the answers are those the runner expects.
 */
module PoolBoards {
  import opened Slots
  import opened Tracks
  import opened Wrappers
  import Cascade
  import Harvests
  import Legs
  import Residents
  import Schedules
  import SlotPools

  /** `size` is the node and edge count of an admitted job's graph. */
  datatype Call = Admit(job: SlotJob, size: (nat, nat), inputs: SlotPools.Inputs)
                | Free(slot: nat) | Submit(slice: nat, deepSlice: nat) | Take(status: SlotPools.Status)

  /** The graph and schedule length a pool is compiled for. */
  datatype Fit = Fit(nodes: nat, edges: seq<(nat, nat)>, stride: nat) {
    predicate Suits(job: SlotJob, size: (nat, nat), inputs: SlotPools.Inputs) {
      && job.Len() <= stride && size == (nodes, |edges|)
      && inputs.nodes == nodes && inputs.edges.edges == edges
    }
  }

  function FitOf<S(0)>(pool: SlotPools.SlotPool<S>): Fit {
    Fit(pool.nodes, pool.edges, pool.stride)
  }

  datatype View = View(board: Board, inFlight: bool, faulted: bool) {
    predicate Idle() { !inFlight && !faulted }
  }

  datatype Told = Refused | Placed(slot: nat) | Freed | Sent(sent: bool) | Reported(entries: seq<Entry>)

  ghost function ViewOf<S(0)>(pool: SlotPools.SlotPool<S>): View
    reads pool
  {
    View(BoardOf(pool.slots), pool.inFlight, pool.faulted)
  }

  function TrackFor(job: SlotJob): Track {
    Track(0, |job.checkpoints|, job.observe)
  }

  predicate AnyLive(board: Board) {
    exists s :: 0 <= s < |board| && board[s].Some?
  }

  // What the runner expects of a call, on its own board.

  predicate Takes(v: View, call: Call, fit: Fit)
    requires call.Admit?
  {
    v.Idle() && fit.Suits(call.job, call.size, call.inputs) && Residents.FirstFree(v.board) < |v.board|
  }

  predicate Frees(v: View, slot: nat) {
    v.Idle() && slot < |v.board| && v.board[slot].Some?
  }

  predicate Sends(v: View, slice: nat, deepSlice: nat) {
    v.Idle() && AnyLive(v.board) && slice > 0 && deepSlice > 0 && Steppable(v.board)
  }

  function Next(v: View, call: Call, fit: Fit, happen: nat -> Happening): (r: View)
    ensures |r.board| == |v.board|
  {
    match call
    case Admit(job, _, _) =>
      if Takes(v, call, fit) then v.(board := v.board[Residents.FirstFree(v.board) := Some(TrackFor(job))])
      else v
    case Free(slot) => if Frees(v, slot) then v.(board := v.board[slot := None]) else v
    case Submit(slice, deepSlice) => if Sends(v, slice, deepSlice) then v.(inFlight := true) else v
    case Take(status) =>
      if !v.inFlight then v
      else match status
        case Pending => v
        case Failed => v.(inFlight := false, faulted := true)
        case Completed(_) => v.(inFlight := false, board := Now(v.board, happen))
  }

  function Answer(v: View, call: Call, fit: Fit, happen: nat -> Happening): Told {
    match call
    case Admit(_, _, _) => if Takes(v, call, fit) then Placed(Residents.FirstFree(v.board)) else Refused
    case Free(slot) => if Frees(v, slot) then Freed else Refused
    case Submit(slice, deepSlice) =>
      if Sends(v, slice, deepSlice) then Sent(true)
      else if v.Idle() && !AnyLive(v.board) then Sent(false)
      else Refused
    case Take(status) =>
      if !v.inFlight then (if v.faulted then Refused else Reported([]))
      else if status.Completed? then Reported(Report(v.board, happen, |v.board|))
      else Refused
  }

  function After(v: View, calls: seq<Call>, fit: Fit, happens: seq<nat -> Happening>): View
    requires |happens| == |calls|
  {
    if calls == [] then v
    else
      var last := |calls| - 1;
      Next(After(v, calls[..last], fit, happens[..last]), calls[last], fit, happens[last])
  }

  function Answers(v: View, calls: seq<Call>, fit: Fit, happens: seq<nat -> Happening>): (r: seq<Told>)
    requires |happens| == |calls|
    ensures |r| == |calls|
  {
    if calls == [] then []
    else
      var last := |calls| - 1;
      Answers(v, calls[..last], fit, happens[..last])
      + [Answer(After(v, calls[..last], fit, happens[..last]), calls[last], fit, happens[last])]
  }

  // What slots say of their board.

  lemma {:induction false} FirstFreeIs(board: Board, n: nat)
    requires n <= |board| && (forall s :: 0 <= s < n ==> board[s].Some?) && (n < |board| ==> board[n].None?)
    ensures Residents.FirstFree(board) == n
  {
    if n > 0 {
      FirstFreeIs(board[1..], n - 1);
    }
  }

  /** A job begun in a slot is its track on the board, and an emptied slot is
      empty there. */
  lemma SlotSet(slots: seq<Option<ResidentJob>>, n: nat, job: SlotJob)
    requires n < |slots|
    ensures BoardOf(slots[n := Some(Begin(job))]) == BoardOf(slots)[n := Some(TrackFor(job))]
    ensures BoardOf(slots[n := None]) == BoardOf(slots)[n := None]
  {
  }

  /** The first empty slot is the board's. */
  lemma FreeOnBoard(slots: seq<Option<ResidentJob>>)
    ensures SlotPools.AnyEmpty(slots) <==> Residents.FirstFree(BoardOf(slots)) < |slots|
    ensures forall n: nat :: n < |slots| && slots[n].None? && (forall s :: 0 <= s < n ==> slots[s].Some?) ==>
              Residents.FirstFree(BoardOf(slots)) == n
  {
    var board := BoardOf(slots);
    assert forall s :: 0 <= s < |slots| ==> (slots[s].Some? <==> board[s].Some?);
    forall n: nat | n < |slots| && slots[n].None? && (forall s :: 0 <= s < n ==> slots[s].Some?)
      ensures Residents.FirstFree(board) == n
    {
      FirstFreeIs(board, n);
    }
  }

  lemma {:induction false} LiveOnBoard(slots: seq<Option<ResidentJob>>)
    ensures SlotPools.LiveCount(slots) > 0 <==> AnyLive(BoardOf(slots))
  {
    if slots != [] {
      var last := |slots| - 1;
      LiveOnBoard(slots[..last]);
      var board, before := BoardOf(slots), BoardOf(slots[..last]);
      assert forall s :: 0 <= s < last ==> before[s] == board[s];
      assert slots[last].Some? ==> board[last].Some?;
      if AnyLive(before) {
        var s :| 0 <= s < |before| && before[s].Some?;
        assert board[s].Some?;
      }
      if AnyLive(board) {
        var s :| 0 <= s < |board| && board[s].Some?;
        assert if s < last then AnyLive(before) else slots[last].Some?;
      }
    }
  }

  /** One call served: the pool's view moves, and its caller is told, as the
      runner expects. */
  method Serve<S(0)>(pool: SlotPools.SlotPool<S>, call: Call) returns (told: Told, ghost happen: nat -> Happening)
    requires pool.Valid() && (call.Admit? ==> call.job.Valid())
    modifies pool
    ensures pool.Valid()
    ensures ViewOf(pool) == Next(old(ViewOf(pool)), call, FitOf(pool), happen)
    ensures told == Answer(old(ViewOf(pool)), call, FitOf(pool), happen)
  {
    happen := (s: nat) => Quiet;
    ghost var was := pool.slots;
    match call
    case Admit(job, size, inputs) =>
      FreeOnBoard(was);
      var result := pool.AdmitPrepared(job, size, inputs);
      if result.Ok? {
        SlotSet(was, result.value, job);
        told := Placed(result.value);
      } else {
        told := Refused;
      }
    case Free(slot) =>
      var result := pool.Release(slot);
      if result.Ok? {
        SlotSet(was, slot, was[slot].value.job);
        told := Freed;
      } else {
        told := Refused;
      }
    case Submit(slice, deepSlice) =>
      LiveOnBoard(was);
      DoneOnBoard(was);
      var result := pool.CommitStep(slice, deepSlice);
      told := if result.Ok? then Sent(result.value) else Refused;
    case Take(status) =>
      told, happen := Retire(pool, status);
  }

  /** A completed command's report is the board's report of its happenings. */
  method Retire<S(0)>(pool: SlotPools.SlotPool<S>, status: SlotPools.Status) returns (told: Told, ghost happen: nat -> Happening)
    requires pool.Valid()
    modifies pool
    ensures pool.Valid()
    ensures ViewOf(pool) == Next(old(ViewOf(pool)), Take(status), FitOf(pool), happen)
    ensures told == Answer(old(ViewOf(pool)), Take(status), FitOf(pool), happen)
  {
    happen := (s: nat) => Quiet;
    ghost var was, flew := pool.slots, pool.inFlight;
    ghost var flying, steps := pool.flying, pool.steps;
    var result := pool.TakeCheckpoints(status);
    told := if result.Ok? then Reported(Entries(result.value)) else Refused;
    if flew && status.Completed? {
      CommandProjects(pool.device, was, pool.slots, pool.outputs, result.value, flying, steps, status.deviceUs);
      happen := Happenings(result.value);
    }
  }

  /** Any sequence of calls served. */
  method Drive<S(0)>(pool: SlotPools.SlotPool<S>, calls: seq<Call>) returns (told: seq<Told>, ghost happens: seq<nat -> Happening>)
    requires pool.Valid() && forall i :: 0 <= i < |calls| && calls[i].Admit? ==> calls[i].job.Valid()
    modifies pool
    ensures pool.Valid() && |happens| == |calls|
    ensures ViewOf(pool) == After(old(ViewOf(pool)), calls, FitOf(pool), happens)
    ensures told == Answers(old(ViewOf(pool)), calls, FitOf(pool), happens)
  {
    told, happens := [], [];
    ghost var start := ViewOf(pool);
    hide Next, Answer;
    for k := 0 to |calls|
      invariant pool.Valid() && |happens| == k
      invariant ViewOf(pool) == After(start, calls[..k], FitOf(pool), happens)
      invariant told == Answers(start, calls[..k], FitOf(pool), happens)
    {
      hide After, Answers, ViewOf;
      var one, happen := Serve(pool, calls[k]);
      OneMore(start, calls, k, FitOf(pool), happens, happen);
      told, happens := told + [one], happens + [happen];
    }
    assert calls[..|calls|] == calls;
  }

  lemma OneMore(v: View, calls: seq<Call>, k: nat, fit: Fit, happens: seq<nat -> Happening>, happen: nat -> Happening)
    requires k < |calls| && |happens| == k
    ensures var before := After(v, calls[..k], fit, happens);
            && After(v, calls[..k + 1], fit, happens + [happen]) == Next(before, calls[k], fit, happen)
            && Answers(v, calls[..k + 1], fit, happens + [happen])
               == Answers(v, calls[..k], fit, happens) + [Answer(before, calls[k], fit, happen)]
  {
    assert calls[..k + 1][..k] == calls[..k] && (happens + [happen])[..k] == happens;
  }

  // The runner's own steps.

  /** A schedule laid out for a ticket has a checkpoint for each of its gates and
      one more, so the pool's track of a placed unit is the runner's. */
  lemma TrackAgrees(c: Cascade.Control<nat>, p: Cascade.Prepared, shape: nat, ladder: Schedules.Ladder,
                    key: Schedules.ScheduleKey, job: SlotJob)
    requires c.plan < |c.plans| && Legs.Prepared(ladder, key, job)
    requires key.stages == Cascade.Current(c, p).StagesUsed() && key.sweeps == p.sweeps
    ensures job.Valid() && |job.checkpoints| == Cascade.Admitted(c, p, shape).1.gates + 1
  {
    Legs.PreparedValid(ladder, key, job);
    Cascade.CheckpointsAreLaidOut(Cascade.Current(c, p), ladder, key);
  }

  /** One pool of the runner and the view it keeps of the real one. */
  function Mirrored(p: Harvests.Pool): View {
    View(p.board, p.inFlight, false)
  }

  lemma {:induction false} SomeLives(live: seq<Option<Harvests.Live>>, board: Board)
    requires |live| == |board| && forall s :: 0 <= s < |live| ==> (live[s].Some? <==> board[s].Some?)
    ensures Harvests.LiveUnits(live) != [] <==> AnyLive(board)
  {
    if live != [] {
      var last := |live| - 1;
      SomeLives(live[..last], board[..last]);
      assert AnyLive(board[..last]) ==> AnyLive(board);
      assert board[last].Some? ==> AnyLive(board);
      if AnyLive(board) {
        var s :| 0 <= s < |board| && board[s].Some?;
        assert s < last ==> board[..last][s].Some?;
      }
    }
  }

  /** In every state the runner reaches without a fault its pool is never
      refused a step: one is sent exactly when a unit is live. */
  lemma SubmitFollows(s: Residents.State, open: Option<bool>, fit: Fit, happen: nat -> Happening, slice: nat, deepSlice: nat)
    requires Residents.Inv(s, open) && !s.fault && s.pools.Some? && Residents.Landed(s) && slice > 0 && deepSlice > 0
    ensures s.turn < 2
    ensures var p := s.pools.value.Get(s.turn);
            var submit := Submit(slice, deepSlice);
            && Answer(Mirrored(p), submit, fit, happen) == Sent(Residents.Occupied(p) > 0)
            && Next(Mirrored(p), submit, fit, happen)
               == Mirrored((if Residents.Occupied(p) > 0 then Residents.Flying(s) else s).pools.value.Get(s.turn))
  {
    var p := s.pools.value.Get(s.turn);
    Residents.TurnReady(s, open);
    hide Residents.Inv, Harvests.Paired, Report, Now;
    SomeLives(p.live, p.board);
  }

  /** Placing a unit moves its board as admitting it moves the pool's, into the
      same slot. */
  lemma PlaceFollows(s: Residents.State, c: Cascade.Control<nat>, t: Cascade.Ticket, job: SlotJob, size: (nat, nat),
                     inputs: SlotPools.Inputs, fit: Fit, happen: nat -> Happening)
    requires s.pools.Some? && s.pending.Some? && s.turn < 2 && Residents.Landed(s)
    requires var p := s.pools.value.Get(s.turn); Residents.FirstFree(p.board) < |p.board| == |p.live|
    requires fit.Suits(job, size, inputs) && |job.checkpoints| == t.gates + 1 && job.observe == s.pending.value.unit.salt
    ensures var p := s.pools.value.Get(s.turn);
            var n := Residents.FirstFree(p.board);
            && Answer(Mirrored(p), Admit(job, size, inputs), fit, happen) == Placed(n)
            && Next(Mirrored(p), Admit(job, size, inputs), fit, happen)
               == Mirrored(Residents.Placed(s, n, c, t).pools.value.Get(s.turn))
  {
  }

  /** Taking a report, too: the runner judges the entries a real pool reports. */
  lemma TakeFollows(p: Harvests.Pool, fit: Fit, happen: nat -> Happening, us: nat)
    requires p.inFlight
    ensures var take := Take(SlotPools.Completed(us));
            && Answer(Mirrored(p), take, fit, happen) == Reported(Report(p.board, happen, |p.board|))
            && Next(Mirrored(p), take, fit, happen) == Mirrored(Harvests.Taken(p, happen))
  {
  }

  /** A slot read back or screened out is released by a real pool. */
  lemma ReleaseFollows(w: Harvests.Work, slot: nat, outcome: Harvests.Outcome, fit: Fit, happen: nat -> Happening)
    requires slot < |w.pool.live| == |w.pool.board| && w.pool.live[slot].Some? && w.pool.board[slot].Some?
    requires !w.pool.inFlight
    ensures Mirrored(Harvests.Released(w, slot, outcome).pool) == Next(Mirrored(w.pool), Free(slot), fit, happen)
    ensures Answer(Mirrored(w.pool), Free(slot), fit, happen) == Freed
  {
  }
}
