/**
 * Harvesting one pool (src/resident.rs): cancelled units leave, checkpoints are
 * judged, finished slots are read back. Slots and tickets start and end in step.
 */
module Harvests {
  import opened Cascade
  import opened Counts
  import opened Schedules
  import TopK
  import opened Tracks
  import opened Wrappers

  /** A job of the stream, or a salt of a lease. */
  datatype Unit = Unit(id: nat, salt: bool, empty: bool, sweeps: nat, shape: nat, round: nat, lease: nat)

  datatype Outcome = Reads | Screened(best: int) | Cancelled | Failed

  datatype Answer = Answer(unit: Unit, outcome: Outcome)

  function UnitsOf(answers: seq<Answer>): (units: seq<Unit>)
    ensures |units| == |answers|
  {
    seq(|answers|, i requires 0 <= i < |answers| => answers[i].unit)
  }

  datatype Live = Live(unit: Unit, ticket: Ticket)

  datatype Pool = Pool(board: Board, live: seq<Option<Live>>, inFlight: bool)

  function LiveUnits(live: seq<Option<Live>>): seq<Unit> {
    if live == [] then []
    else
      LiveUnits(live[..|live| - 1])
      + if live[|live| - 1].Some? then [live[|live| - 1].value.unit] else []
  }

  /** A live unit, its ticket and its slot belong together: the slot has one
      checkpoint more than the ticket has gates, and only salts have gates or are
      observed. */
  predicate Paired(c: Control<nat>, l: Live, t: Track) {
    && c.Fits(l.ticket) && t.count == l.ticket.gates + 1
    && t.observe == l.unit.salt && (!l.unit.salt ==> l.ticket.gates == 0)
  }

  /** Every occupied slot has its live entry, and the other way round. */
  predicate Matched(c: Control<nat>, p: Pool) {
    && |p.live| == |p.board|
    && forall s :: 0 <= s < |p.live| ==>
         && (p.live[s].Some? <==> p.board[s].Some?)
         && (p.live[s].Some? ==> Paired(c, p.live[s].value, p.board[s].value))
  }

  /** Between harvests the slot's next checkpoint is the ticket's stage. */
  predicate InStep(c: Control<nat>, p: Pool) {
    && Matched(c, p)
    && forall s :: 0 <= s < |p.live| && p.live[s].Some? ==> p.board[s].value.next == p.live[s].value.ticket.stage
  }

  /** So no live slot is past its last checkpoint, and every stage is an index
      below the number of stages there can be. */
  lemma InStepSteppable(c: Control<nat>, p: Pool)
    requires InStep(c, p)
    ensures Steppable(p.board)
    ensures forall s :: 0 <= s < |p.live| && p.live[s].Some? ==> p.live[s].value.ticket.stage <= MAX_STAGES
  {
    forall s | 0 <= s < |p.board| && p.board[s].Some?
      ensures p.board[s].value.next < p.board[s].value.count && p.live[s].value.ticket.stage <= MAX_STAGES
    {
      assert Paired(c, p.live[s].value, p.board[s].value);
    }
  }

  /** Controllers on which every earlier ticket still fits. */
  ghost predicate Keeps(c: Control<nat>, d: Control<nat>) {
    d.Ok() && d.settings == c.settings && forall t: Ticket :: c.Fits(t) ==> d.Fits(t)
  }

  lemma KeepsMatched(c: Control<nat>, d: Control<nat>, p: Pool)
    requires Matched(c, p) && Keeps(c, d)
    ensures Matched(d, p) && (InStep(c, p) ==> InStep(d, p))
  {
    FitsMatched(c, d, p);
  }

  lemma FitsMatched(c: Control<nat>, d: Control<nat>, p: Pool)
    requires Matched(c, p) && forall t: Ticket :: c.Fits(t) ==> d.Fits(t)
    ensures Matched(d, p) && (InStep(c, p) ==> InStep(d, p))
  {
    forall s | 0 <= s < |p.live| && p.live[s].Some?
      ensures Paired(d, p.live[s].value, p.board[s].value)
    {
      assert Paired(c, p.live[s].value, p.board[s].value);
    }
  }

  // Live units, counted.

  lemma {:induction false} LiveSet(live: seq<Option<Live>>, s: nat, l: Option<Live>, u: Unit)
    requires s < |live|
    ensures Count(LiveUnits(live[s := l]), u) + (if live[s].Some? && live[s].value.unit == u then 1 else 0)
         == Count(LiveUnits(live), u) + (if l.Some? && l.value.unit == u then 1 else 0)
  {
    hide Count, LiveUnits;
    var last := |live| - 1;
    var now := live[s := l];
    if s < last {
      LiveSet(live[..last], s, l, u);
      assert now[..last] == live[..last][s := l];
      CountTail(live, u);
      CountTail(now, u);
    } else {
      assert now[..last] == live[..last];
      CountTail(live, u);
      CountTail(now, u);
    }
  }

  lemma CountTail(live: seq<Option<Live>>, u: Unit)
    requires live != []
    ensures Count(LiveUnits(live), u)
         == Count(LiveUnits(live[..|live| - 1]), u)
            + if live[|live| - 1].Some? && live[|live| - 1].value.unit == u then 1 else 0
  {
    if live[|live| - 1].Some? {
      CountAppend(LiveUnits(live[..|live| - 1]), live[|live| - 1].value.unit, u);
    }
  }

  lemma UnitsAppend(answers: seq<Answer>, a: Answer, u: Unit)
    ensures Count(UnitsOf(answers + [a]), u) == Count(UnitsOf(answers), u) + if a.unit == u then 1 else 0
  {
    assert UnitsOf(answers + [a]) == UnitsOf(answers) + [a.unit];
  }

  // The harvest under way.

  datatype Work = Work(control: Control<nat>, pool: Pool, answers: seq<Answer>)

  /** Live units are only ever answered, each once. */
  ghost predicate Settles(before: Pool, w: Work) {
    forall u: Unit ::
      Count(LiveUnits(before.live), u) == Count(LiveUnits(w.pool.live), u) + Count(UnitsOf(w.answers), u)
  }

  /** Only salts are screened, and only units nobody waits for are cancelled. */
  predicate Honest(answers: seq<Answer>, gone: set<Unit>) {
    forall i :: 0 <= i < |answers| ==>
      && (answers[i].outcome.Screened? ==> answers[i].unit.salt)
      && (answers[i].outcome == Cancelled ==> answers[i].unit in gone)
  }

  /** A slot released and its unit answered. */
  function Released(w: Work, s: nat, outcome: Outcome): (r: Work)
    requires s < |w.pool.live| == |w.pool.board| && w.pool.live[s].Some?
    ensures r.control == w.control
  {
    w.(pool := w.pool.(board := w.pool.board[s := None], live := w.pool.live[s := None]),
       answers := w.answers + [Answer(w.pool.live[s].value.unit, outcome)])
  }

  ghost predicate Underway(c: Control<nat>, before: Pool, all: set<Unit>, w: Work) {
    && Keeps(c, w.control) && Matched(w.control, w.pool) && Settles(before, w) && Honest(w.answers, all)
    && |w.pool.live| == |before.live| && !w.pool.inFlight
  }

  lemma ReleasedSettles(before: Pool, w: Work, s: nat, outcome: Outcome)
    requires Settles(before, w) && s < |w.pool.live| == |w.pool.board| && w.pool.live[s].Some?
    ensures Settles(before, Released(w, s, outcome))
  {
    hide LiveUnits, UnitsOf, Count;
    forall u: Unit
      ensures Count(LiveUnits(before.live), u)
           == Count(LiveUnits(Released(w, s, outcome).pool.live), u) + Count(UnitsOf(Released(w, s, outcome).answers), u)
    {
      LiveSet(w.pool.live, s, None, u);
      UnitsAppend(w.answers, Answer(w.pool.live[s].value.unit, outcome), u);
    }
  }

  lemma ReleasedMatched(w: Work, s: nat, outcome: Outcome)
    requires Matched(w.control, w.pool) && s < |w.pool.live| && w.pool.live[s].Some?
    ensures Matched(w.control, Released(w, s, outcome).pool)
  {
    hide Paired;
  }

  lemma ReleasedKeeps(c: Control<nat>, before: Pool, all: set<Unit>, w: Work, s: nat, outcome: Outcome)
    requires Underway(c, before, all, w) && s < |w.pool.live| && w.pool.live[s].Some?
    requires outcome.Screened? ==> w.pool.live[s].value.unit.salt
    requires outcome == Cancelled ==> w.pool.live[s].value.unit in all
    ensures |w.pool.live| == |w.pool.board| && Underway(c, before, all, Released(w, s, outcome))
  {
    hide Keeps, Paired, Settles;
    ReleasedSettles(before, w, s, outcome);
    ReleasedMatched(w, s, outcome);
  }

  /** Another ticket for the unit in a slot. */
  lemma ReticketedKeeps(c: Control<nat>, before: Pool, all: set<Unit>, w: Work, s: nat, d: Control<nat>, t: Ticket)
    requires Underway(c, before, all, w) && s < |w.pool.live| && w.pool.live[s].Some?
    requires Keeps(w.control, d) && d.Fits(t) && t.gates == w.pool.live[s].value.ticket.gates
    ensures Underway(c, before, all, w.(control := d,
                                   pool := w.pool.(live := w.pool.live[s := Some(w.pool.live[s].value.(ticket := t))])))
  {
    var l := Some(w.pool.live[s].value.(ticket := t));
    var now := w.(control := d, pool := w.pool.(live := w.pool.live[s := l]));
    forall u: Unit
      ensures Count(LiveUnits(before.live), u) == Count(LiveUnits(now.pool.live), u) + Count(UnitsOf(now.answers), u)
    {
      LiveSet(w.pool.live, s, l, u);
    }
    KeepsMatched(w.control, d, w.pool);
    hide LiveUnits, UnitsOf;
  }

  /** Slots only lose their units. */
  predicate Fewer(w: Work, now: Work) {
    && |now.pool.live| == |w.pool.live|
    && forall s :: 0 <= s < |now.pool.live| && now.pool.live[s].Some? ==>
         w.pool.live[s].Some? && now.pool.live[s].value.unit == w.pool.live[s].value.unit
  }

  // Judging a report.

  /** What an unprocessed entry says of its slot, if that is still live. */
  predicate Due(w: Work, e: Entry)
    requires |w.pool.live| == |w.pool.board| && e.slot < |w.pool.live|
    requires w.pool.live[e.slot].Some? && w.pool.board[e.slot].Some?
  {
    var stage, t := w.pool.live[e.slot].value.ticket, w.pool.board[e.slot].value;
    if e.observe then t.next == stage.stage
    else t.next == stage.stage + 1 && e.index == stage.stage <= stage.gates && (e.last <==> stage.stage == stage.gates)
  }

  predicate Increasing(rest: seq<Entry>) {
    forall i, j :: 0 <= i < j < |rest| ==> rest[i].slot < rest[j].slot
  }

  predicate InRest(rest: seq<Entry>, s: nat) {
    exists i :: 0 <= i < |rest| && rest[i].slot == s
  }

  predicate Distinct(done: seq<nat>) {
    forall i, j :: 0 <= i < j < |done| ==> done[i] != done[j]
  }

  /** The report's entries `rest` are still to be judged and the slots `done` are
      to be read back; every other live slot is in step. */
  predicate Judging(w: Work, rest: seq<Entry>, done: seq<nat>)
    requires |w.pool.live| == |w.pool.board|
    requires forall s :: 0 <= s < |w.pool.live| ==> (w.pool.live[s].Some? <==> w.pool.board[s].Some?)
  {
    && Increasing(rest) && Distinct(done)
    && (forall i :: 0 <= i < |rest| ==>
          && rest[i].slot < |w.pool.live| && rest[i].slot !in done
          && (w.pool.live[rest[i].slot].Some? ==> Due(w, rest[i])))
    && (forall i :: 0 <= i < |done| ==> done[i] < |w.pool.live| && w.pool.live[done[i]].Some?)
    && forall s :: 0 <= s < |w.pool.live| && w.pool.live[s].Some? && s !in done && !InRest(rest, s) ==>
         w.pool.board[s].value.next == w.pool.live[s].value.ticket.stage
  }

  function Taken(p: Pool, happen: nat -> Happening): Pool {
    p.(board := Now(p.board, happen), inFlight := false)
  }

  lemma TakenMatched(c: Control<nat>, p: Pool, happen: nat -> Happening)
    requires Matched(c, p)
    ensures Matched(c, Taken(p, happen))
  {
    forall s | 0 <= s < |p.live| && p.live[s].Some?
      ensures Paired(c, p.live[s].value, Taken(p, happen).board[s].value)
    {
      assert Paired(c, p.live[s].value, p.board[s].value);
      assert Taken(p, happen).board[s] == Some(StepTrack(p.board[s].value, happen(s)));
    }
    hide Paired;
  }

  lemma TakenDue(c: Control<nat>, p: Pool, happen: nat -> Happening, e: Entry)
    requires InStep(c, p) && Names(p.board, happen, e)
    ensures p.live[e.slot].Some? && Due(Work(c, Taken(p, happen), []), e)
  {
    assert Paired(c, p.live[e.slot].value, p.board[e.slot].value);
  }

  /** A completed command has answered nobody yet. */
  lemma TakenUnderway(c: Control<nat>, p: Pool, all: set<Unit>, happen: nat -> Happening)
    requires c.Ok() && InStep(c, p)
    ensures Underway(c, p, all, Work(c, Taken(p, happen), []))
  {
    TakenMatched(c, p, happen);
    assert UnitsOf([]) == [];
    hide Paired, LiveUnits, Now;
  }

  /** Its report is still to be judged. */
  lemma TakenJudging(c: Control<nat>, p: Pool, happen: nat -> Happening)
    requires InStep(c, p)
    ensures Judging(Work(c, Taken(p, happen), []), Report(p.board, happen, |p.board|), [])
  {
    hide Report, Names, Paired, LiveUnits, Due, InRest, Matched, StepTrack;
    var rest, w := Report(p.board, happen, |p.board|), Work(c, Taken(p, happen), []);
    ReportNames(p.board, happen, |p.board|);
    forall s: nat | s < |p.live| || s < |p.board|
      ensures |p.live| == |p.board| && (p.live[s].Some? <==> p.board[s].Some?)
      ensures w.pool.live[s].Some? <==> w.pool.board[s].Some?
    {
      MatchedAt(c, p, s);
    }
    forall i | 0 <= i < |rest|
      ensures rest[i].slot < |p.live| && w.pool.live[rest[i].slot].Some? && Due(w, rest[i])
    {
      TakenDue(c, p, happen, rest[i]);
    }
    forall s: nat | s < |p.live| && p.live[s].Some? && !InRest(rest, s)
      ensures w.pool.board[s].value.next == w.pool.live[s].value.ticket.stage
    {
      ReachedNamed(p.board, happen, |p.board|, s);
      TakenQuiet(c, p, happen, s);
    }
  }

  lemma InStepAt(c: Control<nat>, p: Pool, s: nat)
    requires InStep(c, p)
    ensures |p.live| == |p.board|
    ensures s < |p.live| ==> (p.live[s].Some? <==> p.board[s].Some?)
  {
    hide Paired;
  }

  lemma MatchedAt(c: Control<nat>, p: Pool, s: nat)
    requires Matched(c, p)
    ensures |p.live| == |p.board|
    ensures s < |p.live| ==> (p.live[s].Some? <==> p.board[s].Some?)
  {
    hide Paired;
  }

  lemma TakenQuiet(c: Control<nat>, p: Pool, happen: nat -> Happening, s: nat)
    requires InStep(c, p) && s < |p.live| && p.live[s].Some? && p.board[s].Some?
    requires Seen(p.board[s].value, happen(s)) == Quiet
    ensures Taken(p, happen).board[s].Some?
    ensures Taken(p, happen).board[s].value.next == p.live[s].value.ticket.stage
  {
    hide Paired;
  }

  /** A slot with something to report is in the report. */
  lemma {:induction false} ReachedNamed(board: Board, happen: nat -> Happening, k: nat, s: nat)
    requires s < k <= |board| && board[s].Some?
    ensures Seen(board[s].value, happen(s)) != Quiet ==> InRest(Report(board, happen, k), s)
  {
    var before, report := Report(board, happen, k - 1), Report(board, happen, k);
    if s < k - 1 {
      ReachedNamed(board, happen, k - 1, s);
      if i :| 0 <= i < |before| && before[i].slot == s {
        assert report[i] == before[i];
      }
    } else if Seen(board[s].value, happen(s)) != Quiet {
      assert report[|before|].slot == s;
    }
  }

  /** Only slot `s` differs. */
  predicate OnlySlot(w: Work, now: Work, s: nat) {
    && |now.pool.live| == |w.pool.live| == |w.pool.board| == |now.pool.board| && s < |w.pool.live|
    && (forall k :: 0 <= k < |w.pool.live| ==>
          && (w.pool.live[k].Some? <==> w.pool.board[k].Some?)
          && (now.pool.live[k].Some? <==> now.pool.board[k].Some?))
    && forall k :: 0 <= k < |w.pool.live| && k != s ==>
         now.pool.live[k] == w.pool.live[k] && now.pool.board[k] == w.pool.board[k]
  }

  /** The first entry judged: its slot is to be read back, or is empty, or is in
      step again. */
  lemma EntryJudged(w: Work, now: Work, rest: seq<Entry>, done: seq<nat>, finish: bool)
    requires rest != [] && OnlySlot(w, now, rest[0].slot) && Judging(w, rest, done)
    requires var s := rest[0].slot;
             if finish then now.pool.live[s].Some?
             else now.pool.live[s].Some? ==> now.pool.board[s].value.next == now.pool.live[s].value.ticket.stage
    ensures Judging(now, rest[1..], if finish then done + [rest[0].slot] else done)
  {
    var s := rest[0].slot;
    forall i | 0 <= i < |rest[1..]|
      ensures rest[1..][i].slot != s && rest[1..][i].slot !in done
      ensures now.pool.live[rest[1..][i].slot].Some? ==> Due(now, rest[1..][i])
    {
      assert rest[1..][i] == rest[i + 1] && rest[0].slot < rest[i + 1].slot;
    }
    forall k: nat | InRest(rest, k) && k != s
      ensures InRest(rest[1..], k)
    {
      var i :| 0 <= i < |rest| && rest[i].slot == k;
      assert rest[1..][i - 1] == rest[i];
    }
    hide Due, InRest;
  }

  /** A slot that is not to be read back emptied. */
  lemma EmptiedJudging(w: Work, now: Work, rest: seq<Entry>, done: seq<nat>, s: nat)
    requires OnlySlot(w, now, s) && Judging(w, rest, done) && now.pool.live[s].None? && s !in done
    ensures Judging(now, rest, done)
  {
    forall i | 0 <= i < |rest|
      ensures now.pool.live[rest[i].slot].Some? ==> Due(now, rest[i])
    {
      assert rest[i].slot != s ==> now.pool.live[rest[i].slot] == w.pool.live[rest[i].slot];
    }
    hide Due, InRest;
  }

  // What leases are offered.

  /** A finished salt's energy, offered to its lease's best. */
  datatype Offer = Offer(lease: nat, energy: int)

  function OffersTo(log: seq<Offer>, lease: nat): seq<int> {
    if log == [] then []
    else
      OffersTo(log[..|log| - 1], lease) + if log[|log| - 1].lease == lease then [log[|log| - 1].energy] else []
  }

  predicate Outranks(log: seq<Offer>, lease: nat, x: int) {
    TopK.Beaten(OffersTo(log, lease), x)
  }

  /** Of every salt screened out, its lease's best kept energies are no worse. */
  predicate Outranked(answers: seq<Answer>, log: seq<Offer>) {
    forall i :: 0 <= i < |answers| && answers[i].outcome.Screened? ==>
      Outranks(log, answers[i].unit.lease, answers[i].outcome.best)
  }

  lemma OfferAppend(log: seq<Offer>, o: Offer, lease: nat)
    ensures OffersTo(log + [o], lease) == OffersTo(log, lease) + if o.lease == lease then [o.energy] else []
  {
    assert (log + [o])[..|log|] == log;
  }

  lemma {:induction false} OutranksStays(log: seq<Offer>, now: seq<Offer>, lease: nat, x: int)
    requires Outranks(log, lease, x) && log <= now
    ensures Outranks(now, lease, x)
    decreases |now|
  {
    if now == log {
    } else {
      var before, o := now[..|now| - 1], now[|now| - 1];
      OutranksStays(log, before, lease, x);
      assert now == before + [o];
      OfferAppend(before, o, lease);
      if o.lease == lease {
        TopK.BeatenStays(OffersTo(before, lease), x, o.energy);
      } else {
        assert OffersTo(now, lease) == OffersTo(before, lease);
      }
    }
  }

  /** Later offers leave every screened salt outranked; so do answers of another
      kind, and the answer to one that is. */
  lemma OutrankedStays(answers: seq<Answer>, more: seq<Answer>, log: seq<Offer>, now: seq<Offer>)
    requires Outranked(answers, log) && log <= now && Outranked(more, now)
    ensures Outranked(answers + more, now)
  {
    forall i | 0 <= i < |answers| && answers[i].outcome.Screened?
      ensures Outranks(now, answers[i].unit.lease, answers[i].outcome.best)
    {
      OutranksStays(log, now, answers[i].unit.lease, answers[i].outcome.best);
    }
    hide Outranks;
  }

  // The harvest itself.

  /** What the moment says: how each slot fared, each lease's target, the
      verdicts and the device. */
  datatype Say = Say(
    happen: nat -> Happening, target: nat -> Option<int>, verdict: nat -> Verdict,
    deviceOk: bool, readsOk: bool, best: nat -> int)

  predicate SameShape(w: Work, now: Work) {
    |now.pool.live| == |w.pool.live| == |w.pool.board| == |now.pool.board|
  }

  /** A slot, its unit and its ticket left alone. */
  predicate SameSlot(w: Work, now: Work, s: nat) {
    && SameShape(w, now) && s < |w.pool.live|
    && now.pool.live[s] == w.pool.live[s] && now.pool.board[s] == w.pool.board[s]
  }

  /** The answers given since `before` all say cancelled. */
  predicate OnlyCancelled(before: seq<Answer>, after: seq<Answer>) {
    before <= after && forall i :: |before| <= i < |after| ==> after[i].outcome == Cancelled
  }

  /** Units nobody waits for leave first. */
  method DropAbandoned(ghost c: Control<nat>, ghost before: Pool, ghost all: set<Unit>, w0: Work, ghost rest: seq<Entry>,
                       gone: set<Unit>)
    returns (w: Work)
    requires gone <= all && Underway(c, before, all, w0) && Judging(w0, rest, [])
    ensures Underway(c, before, all, w) && Judging(w, rest, []) && SameShape(w0, w)
    ensures forall s: nat :: s < |w0.pool.live| ==>
              if w0.pool.live[s].Some? && w0.pool.live[s].value.unit in gone then w.pool.live[s].None?
              else SameSlot(w0, w, s)
    ensures OnlyCancelled(w0.answers, w.answers)
  {
    w := w0;
    hide Keeps, Settles, Judging;
    for s := 0 to |w0.pool.live|
      invariant Underway(c, before, all, w) && Judging(w, rest, []) && SameShape(w0, w)
      invariant forall k: nat :: k < |w0.pool.live| ==>
                  if k < s && w0.pool.live[k].Some? && w0.pool.live[k].value.unit in gone then w.pool.live[k].None?
                  else SameSlot(w0, w, k)
      invariant OnlyCancelled(w0.answers, w.answers)
    {
      assert SameSlot(w0, w, s);
      if w.pool.live[s].Some? && w.pool.live[s].value.unit in gone {
        ReleasedKeeps(c, before, all, w, s, Cancelled);
        ReleasedOnly(w, s, Cancelled);
        EmptiedJudging(w, Released(w, s, Cancelled), rest, [], s);
        w := Released(w, s, Cancelled);
      }
    }
  }

  lemma ReleasedOnly(w: Work, s: nat, outcome: Outcome)
    requires s < |w.pool.live| == |w.pool.board| && w.pool.live[s].Some?
    requires forall k :: 0 <= k < |w.pool.live| ==> (w.pool.live[k].Some? <==> w.pool.board[k].Some?)
    ensures OnlySlot(w, Released(w, s, outcome), s) && Released(w, s, outcome).pool.live[s].None?
  {
  }

  /** A unit's new ticket in its slot, under the controller's new state. */
  function Reticketed(w: Work, s: nat, d: Control<nat>, t: Ticket): Work
    requires s < |w.pool.live| && w.pool.live[s].Some?
  {
    w.(control := d, pool := w.pool.(live := w.pool.live[s := Some(w.pool.live[s].value.(ticket := t))]))
  }

  lemma CheckedKeeps(c: Control<nat>, t: Ticket, best: int, target: Option<int>, v: Verdict)
    requires c.Ok() && c.Fits(t) && t.stage < t.gates
    ensures var (d, t', on) := Checked(c, t, best, target, v);
            && Keeps(c, d) && d.Fits(t') && t'.gates == t.gates && t'.stage == t.stage + if on then 1 else 0
  {
    var (d, t', on) := Checked(c, t, best, target, v);
    forall other: Ticket | c.Fits(other)
      ensures d.Fits(other)
    {
      CheckedFits(c, t, best, target, v, other);
    }
    CheckedFits(c, t, best, target, v, t);
    hide Checked;
  }

  datatype Fate = GoOn | ReadOut | ScreenOut

  function TargetOf(l: Live, s: nat, say: Say): Option<int> {
    if l.unit.salt then say.target(s) else None
  }

  /** Whether a salt's energy would be among its lease's best. A job has no lease. */
  predicate EntersBest(log: seq<Offer>, u: Unit, x: int) {
    u.salt && TopK.Enters(OffersTo(log, u.lease), x)
  }

  /** What a report entry means for its unit. */
  function FateOf(c: Control<nat>, l: Live, e: Entry, say: Say, log: seq<Offer>): Fate
    requires c.Ok() && c.Fits(l.ticket)
    requires !e.observe && !e.last ==> l.ticket.stage < l.ticket.gates
  {
    var target := TargetOf(l, e.slot, say);
    if e.observe then (if target.Some? && e.best < target.value then ReadOut else GoOn)
    else if e.last then ReadOut
    else
      var (d, t, on) := Checked(c, l.ticket, e.best, target, say.verdict(e.slot));
      if on then GoOn else if t.finishSweeps.Some? || EntersBest(log, l.unit, e.best) then ReadOut else ScreenOut
  }

  /** A salt that does not go on has been offered to its lease. */
  function Logged(c: Control<nat>, l: Live, e: Entry, say: Say, log: seq<Offer>): seq<Offer>
    requires c.Ok() && c.Fits(l.ticket)
    requires !e.observe && !e.last ==> l.ticket.stage < l.ticket.gates
  {
    if FateOf(c, l, e, say, log) == GoOn then log else OfferOf(log, l.unit, e.best)
  }

  function OfferOf(log: seq<Offer>, u: Unit, x: int): seq<Offer> {
    if u.salt then log + [Offer(u.lease, x)] else log
  }

  /** The last checkpoint is always read back; so is a salt that beats its lease's
      target at any readback of the current topology, and, at a gate it does not
      pass, one that enters its lease's best. The rest of what fails a gate is
      screened out, and everything else goes on: an observe readback never
      screens. */
  lemma FateMeans(c: Control<nat>, l: Live, e: Entry, say: Say, log: seq<Offer>)
    requires c.Ok() && c.Fits(l.ticket) && l.ticket.finishSweeps.None?
    requires !e.observe && !e.last ==> l.ticket.stage < l.ticket.gates
    ensures var fate, target := FateOf(c, l, e, say, log), if l.unit.salt then say.target(e.slot) else None;
            var beats := target.Some? && e.best < target.value;
            if e.observe then fate == (if beats then ReadOut else GoOn)
            else if e.last then fate == ReadOut
            else
              && l.ticket.stage < l.ticket.gates
              && var on := Checked(c, l.ticket, e.best, target, say.verdict(e.slot)).2;
                 && (fate == GoOn <==> on)
                 && (fate == ReadOut <==>
                       !on && ((beats && l.ticket.topologyEpoch == c.topologyEpoch) || EntersBest(log, l.unit, e.best)))
                 && (beats && l.ticket.topologyEpoch == c.topologyEpoch ==> !on)
  {
    hide Checked, EntersBest;
    if !e.observe && !e.last {
      CheckedFinishes(c, l.ticket, e.best, TargetOf(l, e.slot, say), say.verdict(e.slot));
    }
  }

  /** A gate ends a ticket's work early exactly where the target is beaten. */
  lemma CheckedFinishes(c: Control<nat>, t: Ticket, best: int, target: Option<int>, v: Verdict)
    requires c.Ok() && c.Fits(t) && t.stage < t.gates && t.finishSweeps.None?
    ensures var (now, t', on) := Checked(c, t, best, target, v);
            var beats := target.Some? && best < target.value && t.topologyEpoch == c.topologyEpoch;
            (t'.finishSweeps.Some? <==> beats) && (beats ==> !on)
  {
    hide ObserveTransition, AuditSupported, CutoffObserve;
  }

  /** A salt screened out is outranked from then on. */
  lemma ScreenedOutranked(c: Control<nat>, l: Live, e: Entry, say: Say, log: seq<Offer>)
    requires c.Ok() && c.Fits(l.ticket) && l.unit.salt
    requires !e.observe && !e.last ==> l.ticket.stage < l.ticket.gates
    ensures FateOf(c, l, e, say, log) == ScreenOut ==> Outranks(Logged(c, l, e, say, log), l.unit.lease, e.best)
  {
    OfferAppend(log, Offer(l.unit.lease, e.best), l.unit.lease);
    TopK.EntersOrBeaten(OffersTo(log, l.unit.lease), e.best);
    hide Checked, OffersTo, TopK.Enters, TopK.Beaten;
  }

  lemma FinishedKeeps(c: Control<nat>, before: Pool, all: set<Unit>, w: Work, t: Ticket, best: Option<int>, rated: (nat, nat) -> bool)
    requires Underway(c, before, all, w) && w.control.Fits(t)
    ensures w.control.Ok()
    ensures Underway(c, before, all, w.(control := Finished(w.control, t, best, rated)))
  {
    var d := Finished(w.control, t, best, rated);
    forall other: Ticket | w.control.Fits(other)
      ensures d.Fits(other)
    {
      FinishedFits(w.control, t, best, rated, other);
    }
    FinishedFits(w.control, t, best, rated, t);
    KeepsMatched(w.control, d, w.pool);
    hide Finished;
  }

  lemma SamePool(w: Work, now: Work, rest: seq<Entry>, done: seq<nat>)
    requires |w.pool.live| == |w.pool.board| && now.pool == w.pool
    requires forall s :: 0 <= s < |w.pool.live| ==> (w.pool.live[s].Some? <==> w.pool.board[s].Some?)
    requires Judging(w, rest, done)
    ensures Judging(now, rest, done)
  {
    assert forall i :: 0 <= i < |rest| && w.pool.live[rest[i].slot].Some? ==> Due(w, rest[i]) ==> Due(now, rest[i]);
  }

  /** Where the first entry of a report stands. */
  lemma EntryPlace(c: Control<nat>, before: Pool, all: set<Unit>, w: Work, rest: seq<Entry>, done: seq<nat>)
    requires Underway(c, before, all, w) && rest != [] && Judging(w, rest, done)
    ensures var e := rest[0]; e.slot < |w.pool.live| == |w.pool.board| && e.slot !in done && OnlySlot(w, w, e.slot)
    ensures var e := rest[0];
            w.pool.live[e.slot].Some? ==>
              var l := w.pool.live[e.slot].value;
              && w.pool.board[e.slot].Some? && Due(w, e) && w.control.Ok() && w.control.Fits(l.ticket)
              && (!e.observe && !e.last ==> l.ticket.stage < l.ticket.gates && l.unit.salt)
  {
    var e := rest[0];
    if w.pool.live[e.slot].Some? {
      assert Paired(w.control, w.pool.live[e.slot].value, w.pool.board[e.slot].value);
    }
    hide Settles, Honest;
  }

  lemma ReticketedOnly(w: Work, s: nat, d: Control<nat>, t: Ticket)
    requires OnlySlot(w, w, s) && w.pool.live[s].Some?
    ensures var now := Reticketed(w, s, d, t);
            && OnlySlot(w, now, s) && Fewer(w, now) && now.answers == w.answers
            && now.pool.board == w.pool.board && |now.pool.live| == |w.pool.live|
            && now.pool.live[s] == Some(w.pool.live[s].value.(ticket := t))
  {
  }

  lemma OnlySlotTwice(a: Work, b: Work, c: Work, s: nat)
    requires OnlySlot(a, b, s) && OnlySlot(b, c, s) && Fewer(a, b) && c.pool.live[s].None?
    ensures OnlySlot(a, c, s) && Fewer(a, c)
  {
  }

  /** A checked unit stays: in step again, or to be read back. */
  lemma ReticketedJudged(c: Control<nat>, before: Pool, all: set<Unit>, w: Work, d: Control<nat>, t: Ticket,
                         rest: seq<Entry>, done: seq<nat>, finish: bool)
    requires Underway(c, before, all, w) && rest != [] && Judging(w, rest, done)
    requires var s := rest[0].slot; s < |w.pool.live| == |w.pool.board| && OnlySlot(w, w, s) && w.pool.live[s].Some?
    requires var s := rest[0].slot;
             && Keeps(w.control, d) && d.Fits(t) && t.gates == w.pool.live[s].value.ticket.gates
             && (finish || w.pool.board[s].value.next == t.stage)
    ensures var s := rest[0].slot; var now := Reticketed(w, s, d, t);
            && Underway(c, before, all, now) && OnlySlot(w, now, s)
            && Judging(now, rest[1..], if finish then done + [s] else done)
            && Fewer(w, now) && now.answers == w.answers
  {
    var s := rest[0].slot;
    ReticketedKeeps(c, before, all, w, s, d, t);
    ReticketedOnly(w, s, d, t);
    hide Underway, Judging, OnlySlot, Keeps;
    EntryJudged(w, Reticketed(w, s, d, t), rest, done, finish);
  }

  /** A checked unit is screened out: its slot is free and its plan is told. */
  lemma ScreenedJudged(c: Control<nat>, before: Pool, all: set<Unit>, w: Work, d: Control<nat>, t: Ticket,
                       rest: seq<Entry>, done: seq<nat>, v: Verdict)
    requires Underway(c, before, all, w) && rest != [] && Judging(w, rest, done)
    requires var s := rest[0].slot; s < |w.pool.live| == |w.pool.board| && OnlySlot(w, w, s) && w.pool.live[s].Some?
    requires var s := rest[0].slot;
             && Keeps(w.control, d) && d.Fits(t) && t.gates == w.pool.live[s].value.ticket.gates
             && w.pool.live[s].value.unit.salt
    ensures var s := rest[0].slot; var now := Reticketed(w, s, d, t);
            && |now.pool.live| == |now.pool.board| && now.pool.live[s].Some?
            && var out := ScreenedOut(now, rest[0], t, v);
            && Underway(c, before, all, out) && Judging(out, rest[1..], done) && Fewer(w, out)
            && OnlySlot(w, out, s) && out.pool.live[s].None?
            && out.answers == w.answers + [Answer(w.pool.live[s].value.unit, Screened(rest[0].best))]
  {
    var s, outcome := rest[0].slot, Screened(rest[0].best);
    var now := Reticketed(w, s, d, t);
    ReticketedKeeps(c, before, all, w, s, d, t);
    ReleasedKeeps(c, before, all, now, s, outcome);
    var released := Released(now, s, outcome);
    ReticketedOnly(w, s, d, t);
    ReleasedOnly(now, s, outcome);
    OnlySlotTwice(w, now, released, s);
    hide Keeps, Settles, Honest, Matched, Judging, OnlySlot;
    EntryJudged(w, released, rest, done, false);
    FinishedKeeps(c, before, all, released, t, Some(rest[0].best), v.rated);
    SamePool(released, ScreenedOut(now, rest[0], t, v), rest[1..], done);
    OnlySlotSame(w, released, ScreenedOut(now, rest[0], t, v), s);
  }

  lemma OnlySlotSame(w: Work, now: Work, same: Work, s: nat)
    requires OnlySlot(w, now, s) && same.pool == now.pool
    ensures OnlySlot(w, same, s)
  {
  }

  /** A screened unit's slot released, its energy recorded. */
  function ScreenedOut(w: Work, e: Entry, t: Ticket, v: Verdict): Work
    requires e.slot < |w.pool.live| == |w.pool.board| && w.pool.live[e.slot].Some?
    requires w.control.Ok() && w.control.Fits(t)
  {
    var released := Released(w, e.slot, Screened(e.best));
    released.(control := Finished(released.control, t, Some(e.best), v.rated))
  }

  /** What the controller is told of a live entry: nothing off a gate; at a gate its
      decision stands, with the unit's ticket as it leaves it, and a unit screened
      out ends there with its energy. */
  predicate Told(c0: Control<nat>, c: Control<nat>, l: Live, e: Entry, say: Say, log: seq<Offer>, now: Option<Live>)
    requires c0.Ok() && c0.Fits(l.ticket)
    requires !e.observe && !e.last ==> l.ticket.stage < l.ticket.gates
  {
    if e.observe || e.last then c == c0 && now == Some(l)
    else
      var v := say.verdict(e.slot);
      var (d, t, on) := Checked(c0, l.ticket, e.best, TargetOf(l, e.slot, say), v);
      && d.Ok() && d.Fits(t)
      && if FateOf(c0, l, e, say, log) == ScreenOut then now.None? && c == Finished(d, t, Some(e.best), v.rated)
         else now == Some(l.(ticket := t)) && c == d
  }

  /** A live entry's fate carried out: its slot to be read back, or freed and
      answered with its energy, or left to go on. */
  predicate Sentenced(w0: Work, w: Work, e: Entry, say: Say, log0: seq<Offer>, log: seq<Offer>, finish: bool)
    requires SameShape(w0, w) && e.slot < |w0.pool.live| && w0.pool.live[e.slot].Some?
  {
    var l := w0.pool.live[e.slot].value;
    && w0.control.Ok() && w0.control.Fits(l.ticket)
    && (!e.observe && !e.last ==> l.ticket.stage < l.ticket.gates && l.unit.salt)
    && var fate := FateOf(w0.control, l, e, say, log0);
       && log == Logged(w0.control, l, e, say, log0)
       && (finish <==> fate == ReadOut) && (w.pool.live[e.slot].None? <==> fate == ScreenOut)
       && (w.pool.live[e.slot].Some? ==> w.pool.board[e.slot] == w0.pool.board[e.slot])
       && w.answers == w0.answers + (if fate == ScreenOut then [Answer(l.unit, Screened(e.best))] else [])
       && Told(w0.control, w.control, l, e, say, log0, w.pool.live[e.slot])
  }

  /** An entry that is no gate leaves the slot as it is. */
  lemma UngatedSentenced(w: Work, e: Entry, say: Say, log: seq<Offer>, finish: bool)
    requires SameShape(w, w) && e.slot < |w.pool.live| && w.pool.live[e.slot].Some?
    requires w.control.Ok() && w.control.Fits(w.pool.live[e.slot].value.ticket) && (e.observe || e.last)
    requires var target := TargetOf(w.pool.live[e.slot].value, e.slot, say);
             finish <==> !e.observe || (target.Some? && e.best < target.value)
    ensures Sentenced(w, w, e, say, log, if finish then OfferOf(log, w.pool.live[e.slot].value.unit, e.best) else log, finish)
  {
  }

  lemma GateSentenced(w0: Work, w: Work, e: Entry, say: Say, log: seq<Offer>, finish: bool, on: bool)
    requires SameShape(w0, w) && e.slot < |w0.pool.live| && w0.pool.live[e.slot].Some? && !e.observe && !e.last
    requires var l := w0.pool.live[e.slot].value;
             && w0.control.Ok() && w0.control.Fits(l.ticket) && l.ticket.stage < l.ticket.gates && l.unit.salt
             && w.answers == w0.answers + (if on || finish then [] else [Answer(l.unit, Screened(e.best))])
             && var (d, t, goes) := Checked(w0.control, l.ticket, e.best, TargetOf(l, e.slot, say), say.verdict(e.slot));
                on == goes && finish == (!on && (t.finishSweeps.Some? || EntersBest(log, l.unit, e.best)))
    requires w.pool.live[e.slot].None? <==> !on && !finish
    requires w.pool.live[e.slot].Some? ==> w.pool.board[e.slot] == w0.pool.board[e.slot]
    requires var l := w0.pool.live[e.slot].value;
             var (d, t, goes) := Checked(w0.control, l.ticket, e.best, TargetOf(l, e.slot, say), say.verdict(e.slot));
             && d.Ok() && d.Fits(t)
             && if on || finish then w.control == d && w.pool.live[e.slot] == Some(l.(ticket := t))
                else w.control == Finished(d, t, Some(e.best), say.verdict(e.slot).rated)
    ensures var u := w0.pool.live[e.slot].value.unit;
            Sentenced(w0, w, e, say, log, if on then log else OfferOf(log, u, e.best), finish)
  {
    hide Checked, Finished, EntersBest, TargetOf;
  }

  /** A salt judged at a gate. */
  method JudgeGate(ghost c: Control<nat>, ghost before: Pool, ghost all: set<Unit>, w0: Work, e: Entry, say: Say,
                   log0: seq<Offer>, ghost rest: seq<Entry>, ghost done: seq<nat>)
    returns (w: Work, finish: bool, log: seq<Offer>)
    requires Underway(c, before, all, w0) && rest != [] && e == rest[0] && Judging(w0, rest, done)
    requires e.slot < |w0.pool.live| && w0.pool.live[e.slot].Some? && !e.observe && !e.last
    ensures Underway(c, before, all, w)
    ensures Judging(w, rest[1..], if finish then done + [e.slot] else done)
    ensures Fewer(w0, w) && OnlySlot(w0, w, e.slot) && Sentenced(w0, w, e, say, log0, log, finish)
  {
    var s := e.slot;
    EntryPlace(c, before, all, w0, rest, done);
    hide Keeps, Settles, Honest, Matched, Judging, Checked, EntersBest, Sentenced, OfferOf, TargetOf;
    var live := w0.pool.live[s].value;
    var target := TargetOf(live, s, say);
    CheckedKeeps(w0.control, live.ticket, e.best, target, say.verdict(s));
    var (d, t, on) := Checked(w0.control, live.ticket, e.best, target, say.verdict(s));
    finish := !on && (t.finishSweeps.Some? || EntersBest(log0, live.unit, e.best));
    log := if on then log0 else OfferOf(log0, live.unit, e.best);
    w := Reticketed(w0, s, d, t);
    if on || finish {
      ReticketedJudged(c, before, all, w0, d, t, rest, done, finish);
    } else {
      ScreenedJudged(c, before, all, w0, d, t, rest, done, say.verdict(s));
      w := ScreenedOut(w, e, t, say.verdict(s));
    }
    GateSentenced(w0, w, e, say, log0, finish, on);
  }

  /** One entry of the report judged; says whether its slot is to be read back. */
  method JudgeEntry(ghost c: Control<nat>, ghost before: Pool, ghost all: set<Unit>, w0: Work, e: Entry, say: Say,
                    log0: seq<Offer>, ghost rest: seq<Entry>, ghost done: seq<nat>)
    returns (w: Work, finish: bool, log: seq<Offer>)
    requires Underway(c, before, all, w0) && rest != [] && e == rest[0] && Judging(w0, rest, done)
    ensures Underway(c, before, all, w)
    ensures Judging(w, rest[1..], if finish then done + [e.slot] else done)
    ensures finish ==> e.slot < |w.pool.live| && e.slot !in done
    ensures Fewer(w0, w) && OnlySlot(w0, w, e.slot)
    ensures w0.pool.live[e.slot].None? ==> w == w0 && !finish && log == log0
    ensures e.observe || e.last ==> w == w0
    ensures w0.pool.live[e.slot].Some? ==> Sentenced(w0, w, e, say, log0, log, finish)
  {
    w, finish, log := w0, false, log0;
    EntryPlace(c, before, all, w, rest, done);
    hide Keeps, Settles, Honest, Matched, Judging, Sentenced;
    if w.pool.live[e.slot].None? {
      EntryJudged(w0, w, rest, done, false);
    } else if e.observe || e.last {
      var target := TargetOf(w.pool.live[e.slot].value, e.slot, say);
      finish := !e.observe || (target.Some? && e.best < target.value);
      UngatedSentenced(w, e, say, log0, finish);
      EntryJudged(w0, w, rest, done, finish);
      log := if finish then OfferOf(log0, w.pool.live[e.slot].value.unit, e.best) else log0;
    } else {
      w, finish, log := JudgeGate(c, before, all, w0, e, say, log0, rest, done);
    }
  }

  lemma DoneHead(w: Work, now: Work, done: seq<nat>)
    requires done != [] && OnlySlot(w, now, done[0]) && Judging(w, [], done) && now.pool.live[done[0]].None?
    ensures Judging(now, [], done[1..])
  {
    assert forall i :: 0 <= i < |done[1..]| ==> done[1..][i] == done[i + 1];
    forall s: nat | s in done && s != done[0]
      ensures s in done[1..]
    {
      var i :| 0 <= i < |done| && done[i] == s;
      assert done[1..][i - 1] == s;
    }
  }

  /** The answers to the units read back, in order. */
  function ReadAnswers(live: seq<Option<Live>>, done: seq<nat>, gone: set<Unit>): seq<Answer>
    requires forall i :: 0 <= i < |done| ==> done[i] < |live| && live[done[i]].Some?
  {
    if done == [] then []
    else
      var u := live[done[|done| - 1]].value.unit;
      ReadAnswers(live, done[..|done| - 1], gone) + [Answer(u, if u in gone then Cancelled else Reads)]
  }

  /** The slots `done` freed, every other as it was. */
  predicate Freed(w: Work, now: Work, done: seq<nat>) {
    && SameShape(w, now)
    && forall s: nat :: s < |w.pool.live| ==> if s in done then now.pool.live[s].None? else SameSlot(w, now, s)
  }

  lemma FreedStep(w0: Work, w: Work, now: Work, done: seq<nat>, i: nat)
    requires i < |done| && Freed(w0, w, done[..i]) && OnlySlot(w, now, done[i]) && now.pool.live[done[i]].None?
    ensures Freed(w0, now, done[..i + 1])
  {
    forall s: nat
      ensures s in done[..i + 1] <==> s in done[..i] || s == done[i]
    {
      assert done[..i + 1] == done[..i] + [done[i]];
    }
  }

  lemma DoneUntouched(w0: Work, w: Work, done: seq<nat>, i: nat)
    requires i < |done| && Distinct(done) && Freed(w0, w, done[..i]) && done[i] < |w0.pool.live|
    ensures SameSlot(w0, w, done[i])
  {
    assert forall k :: 0 <= k < i ==> done[..i][k] == done[k];
  }

  lemma DoneOk(w: Work, done: seq<nat>)
    requires |w.pool.live| == |w.pool.board|
    requires forall s :: 0 <= s < |w.pool.live| ==> (w.pool.live[s].Some? <==> w.pool.board[s].Some?)
    requires Judging(w, [], done)
    ensures Distinct(done) && forall i :: 0 <= i < |done| ==> done[i] < |w.pool.live| && w.pool.live[done[i]].Some?
  {
  }

  function ReadOutcome(u: Unit, gone: set<Unit>): Outcome {
    if u in gone then Cancelled else Reads
  }

  /** One finished slot released, its unit answered and its end recorded. */
  function ReadOne(w: Work, s: nat, gone: set<Unit>, say: Say): Work
    requires s < |w.pool.live| == |w.pool.board| && w.pool.live[s].Some?
    requires w.control.Ok() && w.control.Fits(w.pool.live[s].value.ticket)
  {
    var live := w.pool.live[s].value;
    var released := Released(w, s, ReadOutcome(live.unit, gone));
    released.(control := Finished(w.control, live.ticket, if live.unit in gone then None else Some(say.best(s)),
                                  say.verdict(s).rated))
  }

  /** The controller is told of the end of a unit read back: with its best energy
      while somebody waits for it, and else without. */
  predicate EndTold(c0: Control<nat>, c: Control<nat>, live: seq<Option<Live>>, s: nat, gone: set<Unit>, say: Say)
    requires s < |live| && live[s].Some?
  {
    var l := live[s].value;
    && c0.Ok() && c0.Fits(l.ticket)
    && c == Finished(c0, l.ticket, if l.unit in gone then None else Some(say.best(s)), say.verdict(s).rated)
  }

  lemma EndToldSame(c0: Control<nat>, c: Control<nat>, live: seq<Option<Live>>, same: seq<Option<Live>>, s: nat,
                    gone: set<Unit>, say: Say)
    requires s < |live| == |same| && live[s].Some? && live[s] == same[s]
    ensures EndTold(c0, c, live, s, gone, say) == EndTold(c0, c, same, s, gone, say)
  {
  }

  lemma OneRead(c: Control<nat>, before: Pool, all: set<Unit>, w: Work, done: seq<nat>, gone: set<Unit>, say: Say)
    requires gone <= all && Underway(c, before, all, w) && done != [] && Judging(w, [], done)
    ensures var s := done[0];
            && s < |w.pool.live| == |w.pool.board| && w.pool.live[s].Some?
            && w.control.Ok() && w.control.Fits(w.pool.live[s].value.ticket)
    ensures var s, now := done[0], ReadOne(w, done[0], gone, say);
            && Underway(c, before, all, now) && Judging(now, [], done[1..]) && OnlySlot(w, now, s) && now.pool.live[s].None?
            && now.answers == w.answers + [Answer(w.pool.live[s].value.unit, ReadOutcome(w.pool.live[s].value.unit, gone))]
            && EndTold(w.control, now.control, w.pool.live, s, gone, say)
  {
    hide Keeps, Settles, Judging, OnlySlot, Finished;
    DoneLive(w, done);
    var s := done[0];
    var live := w.pool.live[s].value;
    var outcome := ReadOutcome(live.unit, gone);
    ReleasedKeeps(c, before, all, w, s, outcome);
    ReleasedOnly(w, s, outcome);
    var released := Released(w, s, outcome);
    DoneHead(w, released, done);
    assert Paired(w.control, live, w.pool.board[s].value);
    hide Honest, Paired;
    FinishedKeeps(c, before, all, released, live.ticket, if live.unit in gone then None else Some(say.best(s)),
                  say.verdict(s).rated);
    SamePool(released, ReadOne(w, s, gone, say), [], done[1..]);
    OnlySlotSame(w, released, ReadOne(w, s, gone, say), s);
  }

  /** The finished slots are read back and their units answered: with their
      reads, or as cancelled when nobody waits any more. */
  method ReadBack(ghost c: Control<nat>, ghost before: Pool, ghost all: set<Unit>, w0: Work, done: seq<nat>,
                  gone: set<Unit>, say: Say)
    returns (w: Work, ghost controls: seq<Control<nat>>)
    requires gone <= all && Underway(c, before, all, w0) && Judging(w0, [], done)
    ensures Underway(c, before, all, w) && Judging(w, [], []) && Freed(w0, w, done)
    ensures forall i :: 0 <= i < |done| ==> done[i] < |w0.pool.live| && w0.pool.live[done[i]].Some?
    ensures w.answers == w0.answers + ReadAnswers(w0.pool.live, done, gone)
    ensures |controls| == |done| + 1 && controls[0] == w0.control && controls[|done|] == w.control
    ensures forall i :: 0 <= i < |done| ==> EndTold(controls[i], controls[i + 1], w0.pool.live, done[i], gone, say)
  {
    hide Keeps, Settles, Judging, ReadAnswers, ReadOne, Honest, Paired, Freed, OnlySlot, EndTold;
    w, controls := w0, [w0.control];
    DoneOk(w0, done);
    FreedNone(w0);
    assert done[0..] == done && done[..0] == [];
    for i := 0 to |done|
      invariant Underway(c, before, all, w) && Judging(w, [], done[i..]) && Freed(w0, w, done[..i])
      invariant w.answers == w0.answers + ReadAnswers(w0.pool.live, done[..i], gone)
      invariant |controls| == i + 1 && controls[0] == w0.control && controls[i] == w.control
      invariant forall k :: 0 <= k < i ==> EndTold(controls[k], controls[k + 1], w0.pool.live, done[k], gone, say)
    {
      OneRead(c, before, all, w, done[i..], gone, say);
      var now := ReadOne(w, done[i], gone, say);
      DoneUntouched(w0, w, done, i);
      EndToldSame(w.control, now.control, w0.pool.live, w.pool.live, done[i], gone, say);
      FreedStep(w0, w, now, done, i);
      ReadAnswersStep(w0.pool.live, done, gone, i);
      assert done[i..][1..] == done[i + 1..];
      w, controls := now, controls + [now.control];
    }
    assert done[|done|..] == [] && done[..|done|] == done;
  }

  lemma FreedNone(w: Work)
    requires |w.pool.live| == |w.pool.board|
    ensures Freed(w, w, [])
    ensures forall gone: set<Unit> :: ReadAnswers(w.pool.live, [], gone) == []
  {
  }

  lemma ReadAnswersStep(live: seq<Option<Live>>, done: seq<nat>, gone: set<Unit>, i: nat)
    requires i < |done| && forall k :: 0 <= k < |done| ==> done[k] < |live| && live[done[k]].Some?
    ensures var u := live[done[i]].value.unit;
            ReadAnswers(live, done[..i + 1], gone)
            == ReadAnswers(live, done[..i], gone) + [Answer(u, ReadOutcome(u, gone))]
  {
    assert done[..i + 1][..i] == done[..i];
  }

  lemma DoneLive(w: Work, done: seq<nat>)
    requires done != [] && |w.pool.live| == |w.pool.board|
    requires forall s :: 0 <= s < |w.pool.live| ==> (w.pool.live[s].Some? <==> w.pool.board[s].Some?)
    requires Judging(w, [], done)
    ensures done[0] < |w.pool.live| && w.pool.live[done[0]].Some?
  {
  }

  lemma AllJudged(w: Work)
    requires Matched(w.control, w.pool) && Judging(w, [], [])
    ensures InStep(w.control, w.pool)
  {
    hide Paired;
  }

  /** What became of the slot of one entry. */
  predicate Judged(w: Work, now: Work, e: Entry, done: seq<nat>, say: Say) {
    && SameShape(w, now) && e.slot < |w.pool.live|
    && (now.pool.live[e.slot].Some? ==>
          && w.pool.live[e.slot].Some? && now.pool.live[e.slot].value.unit == w.pool.live[e.slot].value.unit
          && now.pool.board[e.slot] == w.pool.board[e.slot])
    && (w.pool.live[e.slot].None? || e.observe || e.last ==> SameSlot(w, now, e.slot))
    && (w.pool.live[e.slot].Some? && e.observe ==>
          var target := TargetOf(w.pool.live[e.slot].value, e.slot, say);
          e.slot in done <==> target.Some? && e.best < target.value)
    && (w.pool.live[e.slot].Some? && !e.observe && e.last ==> e.slot in done)
  }

  /** The first `k` entries judged, and nothing else touched. */
  predicate JudgedTo(w: Work, now: Work, rest: seq<Entry>, k: nat, done: seq<nat>, say: Say) {
    && k <= |rest| && SameShape(w, now)
    && (forall i :: 0 <= i < k ==> Judged(w, now, rest[i], done, say))
    && (forall s: nat :: s < |w.pool.live| && !InRest(rest[..k], s) ==> SameSlot(w, now, s))
    && (forall s: nat :: s in done ==> InRest(rest[..k], s))
  }

  lemma JudgedStep(w0: Work, w: Work, now: Work, rest: seq<Entry>, k: nat, done: seq<nat>, finish: bool, say: Say)
    requires k < |rest| && Increasing(rest) && JudgedTo(w0, w, rest, k, done, say)
    requires OnlySlot(w, now, rest[k].slot) && Fewer(w, now)
    requires var e := rest[k];
             && (e.observe || e.last ==> now == w)
             && (w.pool.live[e.slot].None? ==> now == w && !finish)
             && (now.pool.live[e.slot].Some? ==> now.pool.board[e.slot] == w.pool.board[e.slot])
             && (w.pool.live[e.slot].Some? && e.observe ==>
                   var target := TargetOf(w.pool.live[e.slot].value, e.slot, say);
                   finish <==> target.Some? && e.best < target.value)
             && (w.pool.live[e.slot].Some? && !e.observe && e.last ==> finish)
    ensures JudgedTo(w0, now, rest, k + 1, if finish then done + [rest[k].slot] else done, say)
  {
    hide InRest;
    var longer := if finish then done + [rest[k].slot] else done;
    var e := rest[k];
    InRestNext(rest, k);
    assert SameSlot(w0, w, e.slot) && e.slot !in done;
    assert Judged(w0, now, e, longer, say);
    forall i | 0 <= i < k
      ensures Judged(w0, now, rest[i], longer, say)
    {
      assert Judged(w0, w, rest[i], done, say) && SameSlot(w, now, rest[i].slot);
      assert rest[i].slot in longer <==> rest[i].slot in done;
    }
    forall s: nat | s < |w0.pool.live| && !InRest(rest[..k + 1], s)
      ensures SameSlot(w0, now, s)
    {
      assert !InRest(rest[..k], s) && s != e.slot;
      assert SameSlot(w0, w, s) && SameSlot(w, now, s);
    }
    forall s: nat | s in longer
      ensures InRest(rest[..k + 1], s)
    {
      assert s in done || s == e.slot;
    }
    hide Judged, SameSlot;
  }

  lemma InRestNext(rest: seq<Entry>, k: nat)
    requires k < |rest| && Increasing(rest)
    ensures !InRest(rest[..k], rest[k].slot) && forall i :: 0 <= i < k ==> rest[i].slot < rest[k].slot
    ensures forall s: nat :: InRest(rest[..k + 1], s) <==> InRest(rest[..k], s) || s == rest[k].slot
  {
    forall s: nat
      ensures InRest(rest[..k + 1], s) <==> InRest(rest[..k], s) || s == rest[k].slot
    {
      if InRest(rest[..k], s) {
        var i :| 0 <= i < k && rest[..k][i].slot == s;
        assert rest[..k + 1][i].slot == s;
      }
      assert rest[..k + 1][k] == rest[k];
    }
  }

  lemma FewerTransitive(a: Work, b: Work, c: Work)
    requires Fewer(a, b) && Fewer(b, c)
    ensures Fewer(a, c)
  {
  }

  /** What an entry of the report would offer. */
  ghost predicate OfferedBy(live: seq<Option<Live>>, rest: seq<Entry>, o: Offer) {
    exists i :: 0 <= i < |rest| && OffersEntry(live, rest[i], o)
  }

  predicate OffersEntry(live: seq<Option<Live>>, e: Entry, o: Offer) {
    && e.slot < |live| && live[e.slot].Some? && live[e.slot].value.unit.salt
    && o == Offer(live[e.slot].value.unit.lease, e.best)
  }

  ghost predicate Grown(live: seq<Option<Live>>, rest: seq<Entry>, before: seq<Offer>, after: seq<Offer>) {
    before <= after && forall i :: |before| <= i < |after| ==> OfferedBy(live, rest, after[i])
  }

  /** Nobody has been answered with reads. */
  predicate Unread(answers: seq<Answer>) {
    forall i :: 0 <= i < |answers| ==> answers[i].outcome != Reads
  }

  /** One entry's answer and offer. */
  lemma EntryLogged(w0: Work, w: Work, now: Work, rest: seq<Entry>, k: nat, say: Say,
                    log0: seq<Offer>, log: seq<Offer>, longer: seq<Offer>)
    requires k < |rest| && Fewer(w0, w) && rest[k].slot < |w.pool.live|
    requires Grown(w0.pool.live, rest, log0, log) && Outranked(w.answers, log) && Unread(w.answers)
    requires SameShape(w, now)
    requires if w.pool.live[rest[k].slot].None? then now == w && longer == log
             else exists finish :: Sentenced(w, now, rest[k], say, log, longer, finish)
    ensures Grown(w0.pool.live, rest, log0, longer) && Outranked(now.answers, longer) && Unread(now.answers)
  {
    var e := rest[k];
    hide Outranks, Checked, EntersBest;
    if w.pool.live[e.slot].Some? {
      var l := w.pool.live[e.slot].value;
      if l.unit.salt {
        ScreenedOutranked(w.control, l, e, say, log);
        assert OffersEntry(w0.pool.live, e, Offer(l.unit.lease, e.best));
      }
      var screened := FateOf(w.control, l, e, say, log) == ScreenOut;
      hide FateOf;
      OutrankedStays(w.answers, if screened then [Answer(l.unit, Screened(e.best))] else [], log, longer);
    }
  }

  /** Every entry of the report judged in turn; `done` are the slots to read back. */
  method JudgeReport(ghost c: Control<nat>, ghost before: Pool, ghost all: set<Unit>, w0: Work, rest: seq<Entry>, say: Say,
                     log0: seq<Offer>)
    returns (w: Work, done: seq<nat>, log: seq<Offer>)
    requires Underway(c, before, all, w0) && Judging(w0, rest, []) && Outranked(w0.answers, log0)
    requires Unread(w0.answers)
    ensures Underway(c, before, all, w) && Judging(w, [], done) && Fewer(w0, w)
    ensures JudgedTo(w0, w, rest, |rest|, done, say)
    ensures Grown(w0.pool.live, rest, log0, log) && Outranked(w.answers, log) && Unread(w.answers)
  {
    w, done, log := w0, [], log0;
    hide Keeps, Settles, Judging;
    assert rest[0..] == rest && rest[..0] == [];
    ReportIncreases(w0, rest);
    assert JudgedTo(w0, w, rest, 0, done, say);
    for k := 0 to |rest|
      invariant Underway(c, before, all, w) && Judging(w, rest[k..], done) && Fewer(w0, w)
      invariant JudgedTo(w0, w, rest, k, done, say)
      invariant Grown(w0.pool.live, rest, log0, log) && Outranked(w.answers, log) && Unread(w.answers)
    {
      hide Fewer, Matched, Honest, JudgedTo, OnlySlot, Grown, Outranked, Unread;
      assert rest[k..][0] == rest[k] && rest[k..][1..] == rest[k + 1..];
      var now, finish, longer := JudgeEntry(c, before, all, w, rest[k], say, log, rest[k..], done);
      FewerTransitive(w0, w, now);
      JudgedStep(w0, w, now, rest, k, done, finish, say);
      EntryLogged(w0, w, now, rest, k, say, log0, log, longer);
      w, log := now, longer;
      if finish {
        done := done + [rest[k].slot];
      }
    }
    assert rest[|rest|..] == [];
  }

  lemma ReportIncreases(w: Work, rest: seq<Entry>)
    requires |w.pool.live| == |w.pool.board|
    requires forall s :: 0 <= s < |w.pool.live| ==> (w.pool.live[s].Some? <==> w.pool.board[s].Some?)
    requires Judging(w, rest, [])
    ensures Increasing(rest)
  {
  }

  function HappeningOf(p: Pool, say: Say, s: nat): Happening
    requires s < |p.board| && p.board[s].Some?
  {
    if p.inFlight then Seen(p.board[s].value, say.happen(s)) else Quiet
  }

  /** What a harvest makes of one slot. */
  predicate Fated(p: Pool, early: set<Unit>, say: Say, now: Pool, s: nat)
    requires s < |p.live| == |p.board| && p.live[s].Some? == p.board[s].Some?
  {
    && |now.live| == |now.board| == |p.live|
    && if p.live[s].None? then now.live[s].None?
       else
         var l, t := p.live[s].value, p.board[s].value;
         var target := TargetOf(l, s, say);
         if l.unit in early then now.live[s].None?
         else match HappeningOf(p, say, s)
           case Quiet => now.live[s] == p.live[s] && now.board[s] == p.board[s]
           case Observed(best) =>
             if target.Some? && best < target.value then now.live[s].None?
             else now.live[s] == p.live[s] && now.board[s] == p.board[s]
           case Reached(best) =>
             && (t.next + 1 == t.count ==> now.live[s].None?)
             && (now.live[s].Some? ==>
                   now.live[s].value.unit == l.unit && now.board[s] == Some(t.(next := t.next + 1)))
  }

  /** The three parts of a harvest, seen from one slot. */
  lemma SlotFated(c: Control<nat>, p: Pool, early: set<Unit>, say: Say, dropped: Work, judged: Work, w: Work,
                  done: seq<nat>, s: nat)
    requires InStep(c, p) && s < |p.live|
    requires var happen := if p.inFlight then say.happen else (k: nat) => Quiet;
             var rest := Report(p.board, happen, |p.board|);
             && JudgedTo(dropped, judged, rest, |rest|, done, say)
             && SameShape(Work(c, Taken(p, happen), []), dropped)
             && (if p.live[s].Some? && p.live[s].value.unit in early then dropped.pool.live[s].None?
                 else SameSlot(Work(c, Taken(p, happen), []), dropped, s))
    requires Freed(judged, w, done)
    ensures Fated(p, early, say, w.pool, s)
  {
    hide Report, InStep, HappeningOf, Names, Seen, StepTrack, Taken, Fated, Judged;
    var happen := if p.inFlight then say.happen else (k: nat) => Quiet;
    var rest := Report(p.board, happen, |p.board|);
    assert rest[..|rest|] == rest;
    ReportNames(p.board, happen, |p.board|);
    InStepAt(c, p, s);
    TakenAt(p, happen, s);
    if p.live[s].Some? {
      HappenAt(p, say, happen, s);
      ReachedNamed(p.board, happen, |p.board|, s);
    }
    if InRest(rest, s) {
      var i :| 0 <= i < |rest| && rest[i].slot == s;
      NamedEntry(p.board, happen, rest[i]);
      assert Judged(dropped, judged, rest[i], done, say);
      hide InRest;
      NamedFated(p, early, say, happen, dropped, judged, w, done, rest[i]);
    } else {
      hide InRest;
      assert SameSlot(dropped, judged, s) && s !in done;
      QuietFated(p, early, say, dropped, w, s);
    }
  }

  lemma QuietFated(p: Pool, early: set<Unit>, say: Say, dropped: Work, w: Work, s: nat)
    requires s < |p.live| == |p.board| && p.live[s].Some? == p.board[s].Some?
    requires p.live[s].Some? ==> HappeningOf(p, say, s) == Quiet
    requires SameSlot(dropped, w, s) && |dropped.pool.live| == |p.live|
    requires if p.live[s].Some? && p.live[s].value.unit in early then dropped.pool.live[s].None?
             else dropped.pool.live[s] == p.live[s] && dropped.pool.board[s] == p.board[s]
    ensures Fated(p, early, say, w.pool, s)
  {
  }

  lemma NamedFated(p: Pool, early: set<Unit>, say: Say, happen: nat -> Happening, dropped: Work, judged: Work, w: Work,
                   done: seq<nat>, e: Entry)
    requires var s := e.slot;
             && s < |p.live| == |p.board| && p.live[s].Some? && p.board[s].Some?
             && HappeningOf(p, say, s) == Seen(p.board[s].value, happen(s)) && Names(p.board, happen, e)
             && |dropped.pool.live| == |p.live|
    requires var s := e.slot;
             && Judged(dropped, judged, e, done, say) && Freed(judged, w, done)
             && if p.live[s].value.unit in early then dropped.pool.live[s].None?
                else dropped.pool.live[s] == p.live[s]
                     && dropped.pool.board[s] == Some(StepTrack(p.board[s].value, happen(s)))
    ensures Fated(p, early, say, w.pool, e.slot)
  {
    NamedEntry(p.board, happen, e);
    hide Names, Seen, StepTrack, HappeningOf, TargetOf;
    assert if e.slot in done then w.pool.live[e.slot].None? else SameSlot(judged, w, e.slot);
    hide Freed;
  }

  lemma NamedEntry(board: Board, happen: nat -> Happening, e: Entry)
    requires Names(board, happen, e)
    ensures e.slot < |board| && board[e.slot].Some?
    ensures var t := board[e.slot].value;
            && Seen(t, happen(e.slot)) == (if e.observe then Observed(e.best) else Reached(e.best))
            && (e.last <==> !e.observe && t.next + 1 == t.count)
            && (e.observe ==> StepTrack(t, happen(e.slot)) == t)
            && (!e.observe ==> StepTrack(t, happen(e.slot)) == t.(next := t.next + 1))
  {
    var t := board[e.slot].value;
    assert EntryOf(t, e.slot, happen(e.slot))[0] == e;
  }

  lemma TakenAt(p: Pool, happen: nat -> Happening, s: nat)
    requires s < |p.board|
    ensures Taken(p, happen).live == p.live && |Taken(p, happen).board| == |p.board|
    ensures p.board[s].None? ==> Taken(p, happen).board[s].None?
    ensures p.board[s].Some? ==> Taken(p, happen).board[s] == Some(StepTrack(p.board[s].value, happen(s)))
  {
  }

  lemma HappenAt(p: Pool, say: Say, happen: nat -> Happening, s: nat)
    requires happen == (if p.inFlight then say.happen else (k: nat) => Quiet)
    requires s < |p.board| && p.board[s].Some?
    ensures Seen(p.board[s].value, happen(s)) == HappeningOf(p, say, s)
    ensures HappeningOf(p, say, s) == Quiet ==> StepTrack(p.board[s].value, happen(s)) == p.board[s].value
  {
    if p.inFlight {
      assert happen(s) == say.happen(s);
    } else {
      assert happen(s) == Quiet;
    }
  }

  /** Offered by a live salt that reported this energy. */
  ghost predicate Reports(p: Pool, say: Say, o: Offer) {
    exists s: nat :: ReportsAt(p, say, s, o)
  }

  predicate ReportsAt(p: Pool, say: Say, s: nat, o: Offer) {
    && s < |p.live| == |p.board| && p.live[s].Some? && p.board[s].Some? && p.live[s].value.unit.salt
    && o.lease == p.live[s].value.unit.lease
    && (HappeningOf(p, say, s) == Observed(o.energy) || HappeningOf(p, say, s) == Reached(o.energy))
  }

  lemma GrownReports(c: Control<nat>, p: Pool, say: Say, happen: nat -> Happening, live: seq<Option<Live>>, o: Offer)
    requires InStep(c, p) && happen == (if p.inFlight then say.happen else (k: nat) => Quiet)
    requires |live| == |p.live| && forall s :: 0 <= s < |live| ==> live[s].None? || live[s] == p.live[s]
    requires OfferedBy(live, Report(p.board, happen, |p.board|), o)
    ensures Reports(p, say, o)
  {
    var rest := Report(p.board, happen, |p.board|);
    var i :| 0 <= i < |rest| && OffersEntry(live, rest[i], o);
    ReportNames(p.board, happen, |p.board|);
    var s := rest[i].slot;
    NamedEntry(p.board, happen, rest[i]);
    HappenAt(p, say, happen, s);
    hide Report, Names, Seen, StepTrack, HappeningOf;
    assert ReportsAt(p, say, s, o);
  }

  /** Whom the slots `done` belong to. */
  function ReadUnits(live: seq<Option<Live>>, done: seq<nat>): (units: seq<Unit>)
    requires forall i :: 0 <= i < |done| ==> done[i] < |live| && live[done[i]].Some?
    ensures |units| == |done|
  {
    seq(|done|, i requires 0 <= i < |done| => live[done[i]].value.unit)
  }

  /** Every answer with reads is one of these units'. */
  predicate ReadsAmong(answers: seq<Answer>, read: seq<Unit>) {
    forall i :: 0 <= i < |answers| && answers[i].outcome == Reads ==> answers[i].unit in read
  }

  lemma {:induction false} ReadAnswersAmong(live: seq<Option<Live>>, done: seq<nat>, gone: set<Unit>)
    requires forall i :: 0 <= i < |done| ==> done[i] < |live| && live[done[i]].Some?
    ensures ReadsAmong(ReadAnswers(live, done, gone), ReadUnits(live, done))
  {
    if done != [] {
      var last := |done| - 1;
      ReadAnswersAmong(live, done[..last], gone);
      assert ReadUnits(live, done) == ReadUnits(live, done[..last]) + [live[done[last]].value.unit];
    }
  }

  lemma ReadsAfter(before: seq<Answer>, live: seq<Option<Live>>, done: seq<nat>, gone: set<Unit>)
    requires forall i :: 0 <= i < |done| ==> done[i] < |live| && live[done[i]].Some?
    requires Unread(before)
    ensures ReadsAmong(before + ReadAnswers(live, done, gone), ReadUnits(live, done))
  {
    ReadAnswersAmong(live, done, gone);
    hide ReadAnswers, ReadUnits;
  }

  /** A unit read back: its slot reported a checkpoint, or an observed energy below
      its target. */
  ghost predicate ReadOff(p: Pool, say: Say, u: Unit) {
    exists s: nat :: ReadOffAt(p, say, s, u)
  }

  predicate ReadOffAt(p: Pool, say: Say, s: nat, u: Unit) {
    && s < |p.live| == |p.board| && p.live[s].Some? && p.board[s].Some? && p.live[s].value.unit == u
    && match HappeningOf(p, say, s)
       case Quiet => false
       case Observed(best) =>
         var target := TargetOf(p.live[s].value, s, say);
         target.Some? && best < target.value
       case Reached(_) => true
  }

  lemma DoneReadOff(c: Control<nat>, p: Pool, say: Say, happen: nat -> Happening, dropped: Work, judged: Work, done: seq<nat>,
                    i: nat)
    requires InStep(c, p) && happen == (if p.inFlight then say.happen else (k: nat) => Quiet)
    requires var rest := Report(p.board, happen, |p.board|); JudgedTo(dropped, judged, rest, |rest|, done, say)
    requires Fewer(dropped, judged) && |dropped.pool.live| == |p.live|
    requires forall s :: 0 <= s < |p.live| ==> dropped.pool.live[s].None? || dropped.pool.live[s] == p.live[s]
    requires i < |done| && done[i] < |judged.pool.live| && judged.pool.live[done[i]].Some?
    ensures ReadOff(p, say, judged.pool.live[done[i]].value.unit)
  {
    hide Report, InStep, Names, Seen, StepTrack, HappeningOf, TargetOf;
    var rest := Report(p.board, happen, |p.board|);
    var s := done[i];
    assert rest[..|rest|] == rest;
    ReportNames(p.board, happen, |p.board|);
    InStepAt(c, p, s);
    assert s in done;
    assert InRest(rest[..|rest|], s);
    var k :| 0 <= k < |rest| && rest[k].slot == s;
    NamedEntry(p.board, happen, rest[k]);
    HappenAt(p, say, happen, s);
    assert Judged(dropped, judged, rest[k], done, say);
    assert ReadOffAt(p, say, s, judged.pool.live[s].value.unit);
  }

  lemma QuietAnswers(before: seq<Answer>, live: seq<Option<Live>>, done: seq<nat>, gone: set<Unit>, log: seq<Offer>)
    requires forall i :: 0 <= i < |done| ==> done[i] < |live| && live[done[i]].Some?
    requires Outranked(before, log)
    ensures Outranked(before + ReadAnswers(live, done, gone), log)
  {
    ReadAnswersUnscreened(live, done, gone);
    hide Outranks;
  }

  lemma {:induction false} ReadAnswersUnscreened(live: seq<Option<Live>>, done: seq<nat>, gone: set<Unit>)
    requires forall i :: 0 <= i < |done| ==> done[i] < |live| && live[done[i]].Some?
    ensures forall i :: 0 <= i < |ReadAnswers(live, done, gone)| ==> !ReadAnswers(live, done, gone)[i].outcome.Screened?
  {
    if done != [] {
      ReadAnswersUnscreened(live, done[..|done| - 1], gone);
    }
  }

  lemma UnreadAmong(answers: seq<Answer>)
    requires Unread(answers)
    ensures ReadsAmong(answers, [])
  {
  }

  lemma CancelledOutranked(answers: seq<Answer>, log: seq<Offer>)
    requires OnlyCancelled([], answers)
    ensures Outranked(answers, log) && Unread(answers)
  {
  }

  lemma NothingHarvested(c: Control<nat>, p: Pool, all: set<Unit>, log: seq<Offer>)
    requires c.Ok()
    ensures Keeps(c, c) && Settles(p, Work(c, p, [])) && Honest([], all) && Outranked([], log)
    ensures ReadsAmong([], [])
  {
    assert UnitsOf([]) == [];
    hide Count, LiveUnits;
  }

  /** One pool's harvest. Whatever happens its live units are only answered, each
      once; and when no device call fails, slots and tickets are in step again,
      ready for the next command. */
  method Harvest(c: Control<nat>, p: Pool, early: set<Unit>, late: set<Unit>, say: Say, log0: seq<Offer>)
    returns (w: Work, failed: bool, log: seq<Offer>, read: seq<Unit>)
    requires c.Ok() && InStep(c, p)
    ensures Keeps(c, w.control) && Settles(p, w) && Honest(w.answers, early + late) && |w.pool.live| == |p.live| == |w.pool.board|
    ensures !failed ==> InStep(w.control, w.pool) && !w.pool.inFlight && Steppable(w.pool.board)
    ensures failed <==> p.inFlight && (!say.deviceOk || !say.readsOk)
    ensures !failed ==> forall s: nat :: s < |p.live| ==> Fated(p, early, say, w.pool, s)
    ensures Outranked(w.answers, log)
    ensures ReadsAmong(w.answers, read) && (failed ==> read == []) && forall i :: 0 <= i < |read| ==> ReadOff(p, say, read[i])
    ensures log0 <= log && forall i :: |log0| <= i < |log| ==> Reports(p, say, log[i])
  {
    hide Keeps, Settles, Judging, Released, Report, Now, Honest, Paired, Fated, JudgedTo, Freed, Outranked, Reports, Unread, ReadsAmong, ReadOff;
    if p.inFlight && !say.deviceOk {
      NothingHarvested(c, p, early + late, log0);
      return Work(c, p, []), true, log0, [];
    }
    ghost var all := early + late;
    var happen := if p.inFlight then say.happen else (k: nat) => Quiet;
    var rest := Report(p.board, happen, |p.board|);
    TakenUnderway(c, p, all, happen);
    TakenJudging(c, p, happen);
    w := Work(c, Taken(p, happen), []);
    w := DropAbandoned(c, p, all, w, rest, early);
    ghost var dropped := w;
    CancelledOutranked(w.answers, log0);
    var done;
    w, done, log := JudgeReport(c, p, all, w, rest, say, log0);
    forall i | |log0| <= i < |log|
      ensures Reports(p, say, log[i])
    {
      GrownReports(c, p, say, happen, dropped.pool.live, log[i]);
    }
    if p.inFlight && !say.readsOk {
      UnreadAmong(w.answers);
      return w, true, log, [];
    }
    var judged := w;
    ghost var controls;
    w, controls := ReadBack(c, p, all, w, done, late, say);
    QuietAnswers(judged.answers, judged.pool.live, done, late, log);
    read := ReadUnits(judged.pool.live, done);
    ReadsAfter(judged.answers, judged.pool.live, done, late);
    forall i | 0 <= i < |read|
      ensures ReadOff(p, say, read[i])
    {
      DoneReadOff(c, p, say, happen, dropped, judged, done, i);
    }
    forall s: nat | s < |p.live|
      ensures Fated(p, early, say, w.pool, s)
    {
      SlotFated(c, p, early, say, dropped, judged, w, done, s);
    }
    AllJudged(w);
    InStepSteppable(w.control, w.pool);
    failed := false;
  }
}
