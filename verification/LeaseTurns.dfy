/**
 * Lease turns, feeding and reporting (src/lease_turn.rs, src/lib.rs). Each lease
 * is a thread that waits for its turn, a feeder that queues its salts, and a
 * reporter that counts outcomes; the runner takes and answers salts. Any of them
 * may take the next step.
 */
module LeaseTurns {
  import opened Wrappers

  /** Leases waiting to feed, first come first. */
  datatype Line = Line(nextId: nat, waiting: seq<nat>) {
    predicate Ok() {
      && (forall i :: 0 <= i < |waiting| ==> waiting[i] < nextId)
      && forall i, j :: 0 <= i < j < |waiting| ==> waiting[i] < waiting[j]
    }

    predicate AtFront(id: nat) { waiting != [] && waiting[0] == id }
  }

  function Joined(line: Line): Line {
    Line(line.nextId + 1, line.waiting + [line.nextId])
  }

  /** Everything but `id`, in order. */
  function Without(waiting: seq<nat>, id: nat): seq<nat> {
    if waiting == [] then []
    else (if waiting[0] == id then [] else [waiting[0]]) + Without(waiting[1..], id)
  }

  lemma {:induction false} WithoutIs(waiting: seq<nat>, id: nat)
    ensures forall x :: x in Without(waiting, id) <==> x in waiting && x != id
    ensures (forall i, j :: 0 <= i < j < |waiting| ==> waiting[i] < waiting[j]) ==>
              forall i, j :: 0 <= i < j < |Without(waiting, id)| ==> Without(waiting, id)[i] < Without(waiting, id)[j]
  {
    if waiting != [] {
      WithoutIs(waiting[1..], id);
      var rest := Without(waiting[1..], id);
      assert waiting == [waiting[0]] + waiting[1..];
      if waiting[0] != id && forall i, j :: 0 <= i < j < |waiting| ==> waiting[i] < waiting[j] {
        forall k | 0 <= k < |rest|
          ensures waiting[0] < rest[k]
        {
          assert rest[k] in waiting[1..];
        }
      }
    }
  }

  /** Leaving the line disturbs nobody else. */
  lemma LeaveLine(line: Line, id: nat, other: nat)
    requires line.Ok() && other != id
    ensures Line(line.nextId, Without(line.waiting, id)).Ok()
    ensures id !in Without(line.waiting, id)
    ensures other in line.waiting <==> other in Without(line.waiting, id)
    ensures line.AtFront(other) ==> Line(line.nextId, Without(line.waiting, id)).AtFront(other)
  {
    WithoutIs(line.waiting, id);
    forall i | 0 <= i < |Without(line.waiting, id)|
      ensures Without(line.waiting, id)[i] < line.nextId
    {
      assert Without(line.waiting, id)[i] in line.waiting;
    }
  }

  /** Keeps every waiting lease but one. */
  method Retain(waiting: seq<nat>, id: nat) returns (kept: seq<nat>)
    ensures kept == Without(waiting, id)
  {
    hide Without;
    kept := [];
    WithoutNone(id);
    for i := 0 to |waiting|
      invariant kept == Without(waiting[..i], id)
    {
      WithoutAppend(waiting[..i], waiting[i], id);
      assert waiting[..i] + [waiting[i]] == waiting[..i + 1];
      if waiting[i] != id {
        kept := kept + [waiting[i]];
      }
    }
    assert waiting[..|waiting|] == waiting;
  }

  lemma WithoutNone(id: nat)
    ensures Without([], id) == []
  {
  }

  lemma {:induction false} WithoutAppend(waiting: seq<nat>, x: nat, id: nat)
    ensures Without(waiting + [x], id) == Without(waiting, id) + if x == id then [] else [x]
  {
    if waiting != [] {
      assert (waiting + [x])[1..] == waiting[1..] + [x];
      WithoutAppend(waiting[1..], x, id);
    }
  }

  class Turns {
    var nextId: nat
    var waiting: seq<nat>

    function Now(): Line
      reads this
    {
      Line(nextId, waiting)
    }

    constructor ()
      ensures Now() == Line(0, [])
    {
      nextId, waiting := 0, [];
    }

    method Join() returns (id: nat)
      requires Now().Ok()
      modifies this
      ensures id == old(nextId) && Now() == Joined(old(Now())) && Now().Ok()
    {
      id := nextId;
      nextId := nextId + 1;
      waiting := waiting + [id];
    }

    /** Leaves the line, wherever in it; again is nothing. */
    method Release(id: nat)
      requires Now().Ok()
      modifies this
      ensures Now() == Line(old(nextId), Without(old(waiting), id)) && Now().Ok()
      ensures !Now().AtFront(id) && id !in waiting
    {
      LeaveLine(Now(), id, id + 1);
      waiting := Retain(waiting, id);
    }
  }

  // The protocol.

  /** A lease waits for its turn; it feeds, queueing a salt and then counting it;
      a stopped feeder ends before it gives up the turn, a finished one after. */
  datatype Phase = Waiting | Feeding | Counting | Ending | Handed | Gone

  datatype Report = Reporting | ReportedAll | Quit

  /** `sent` salts are queued and `fed` of them counted; `feeding` is the flag
      the reporter reads; `outcomes` are waiting and `reported` read, by salt. */
  datatype Lease = Lease(
    salts: nat, phase: Phase, round: nat, sent: nat, fed: nat, feeding: bool, stopped: bool, halted: bool,
    outcomes: seq<nat>, reported: seq<nat>, report: Report)

  datatype Salt = Salt(lease: nat, index: nat, round: nat)

  /** The intake channel is the part of the log from `taken` on, until the runner's
      end closes it. */
  datatype State = State(line: Line, leases: seq<Lease>, round: nat, log: seq<Salt>, taken: nat, answered: seq<Salt>,
                         runnerLive: bool, intakeOpen: bool)

  datatype Move =
    | Join(salts: nat)
    | Stop(id: nat)
    | Grant(id: nat)
    | GiveUp(id: nat)
    | Send(id: nat)
    | CountSent(id: nat)
    | EndFeeding(id: nat)
    | Hand(id: nat)
    | LeaveTurn(id: nat)
    | Take
    | Answer(k: nat)
    | Read(id: nat)
    | Finish(id: nat)
    | QuitReport(id: nat)
    | CutOff(id: nat)
    | RunnerIs(live: bool)
    | CloseIntake

  /** A step of one lease's own threads. */
  predicate Own(m: Move) {
    !m.Join? && !m.Take? && !m.Answer? && !m.RunnerIs? && !m.CloseIntake?
  }

  function Put(s: State, id: nat, l: Lease): State
    requires id < |s.leases|
  {
    s.(leases := s.leases[id := l])
  }

  function Leave(s: State, id: nat): State {
    s.(line := s.line.(waiting := Without(s.line.waiting, id)))
  }

  /** One step, if it is enabled; `capacity` bounds the intake channel. */
  function Step(s: State, capacity: nat, m: Move): State {
    match m
    case Join(salts) =>
      s.(line := Joined(s.line), leases := s.leases + [Lease(salts, Waiting, 0, 0, 0, true, false, false, [], [], Reporting)])
    case Take => if s.taken < |s.log| then s.(taken := s.taken + 1) else s
    case Answer(k) =>
      if k < s.taken <= |s.log| && s.log[k] !in s.answered && s.log[k].lease < |s.leases| then
        var salt := s.log[k];
        var l := s.leases[salt.lease];
        Put(s.(answered := s.answered + [salt]), salt.lease, l.(outcomes := l.outcomes + [salt.index]))
      else s
    case RunnerIs(live) => s.(runnerLive := live)
    case CloseIntake => s.(intakeOpen := false)
    case _ => if m.id < |s.leases| then LeaseStep(s, capacity, m, s.leases[m.id]) else s
  }

  /** What that step does. A lease that waits stops waiting when it is stopped or
      the runner is gone, but only the former starts a new round. */
  function LeaseStep(s: State, capacity: nat, m: Move, l: Lease): State
    requires Own(m) && m.id < |s.leases| && l == s.leases[m.id]
  {
    var id := m.id;
    match m
    case Stop(_) => Put(s, id, l.(stopped := true))
    case Grant(_) =>
      if l.phase == Waiting && s.line.AtFront(id) then Put(s, id, l.(phase := Feeding, round := s.round)) else s
    case GiveUp(_) =>
      if l.phase == Waiting && (l.stopped || !s.runnerLive) then
        Leave(Put(s, id, l.(phase := Gone, feeding := false, report := Quit)), id).(round := if l.stopped then s.round + 1 else s.round)
      else s
    case Send(_) =>
      if l.phase == Feeding && l.sent < l.salts && !l.stopped && !l.halted && s.intakeOpen && |s.log| - s.taken < capacity then
        Put(s, id, l.(phase := Counting, sent := l.sent + 1)).(log := s.log + [Salt(id, l.sent, l.round)])
      else s
    case CountSent(_) =>
      if l.phase == Counting then Put(s, id, l.(phase := Feeding, fed := l.fed + 1)) else s
    case EndFeeding(_) =>
      if l.phase == Feeding && l.sent < l.salts && (l.stopped || l.halted) then
        Put(s, id, l.(phase := Ending, feeding := false)).(round := if l.stopped then s.round + 1 else s.round)
      else if l.phase == Handed then Put(s, id, l.(phase := Gone, feeding := false))
      else s
    case Hand(_) =>
      if l.phase == Feeding && l.sent == l.salts then Leave(Put(s, id, l.(phase := Handed)), id) else s
    case LeaveTurn(_) =>
      if l.phase == Ending then Leave(Put(s, id, l.(phase := Gone)), id) else s
    case Read(_) =>
      if l.report == Reporting && l.outcomes != [] then
        Put(s, id, l.(reported := l.reported + [l.outcomes[0]], outcomes := l.outcomes[1..]))
      else s
    case Finish(_) =>
      if l.report == Reporting && l.phase != Waiting && !l.feeding && |l.reported| == l.fed then
        Put(s, id, l.(report := ReportedAll, halted := true))
      else s
    case QuitReport(_) =>
      if l.report == Reporting && l.phase != Waiting then Put(s, id, l.(report := Quit, halted := true)) else s
    case CutOff(_) =>
      if l.phase == Feeding && l.sent < l.salts && !s.intakeOpen then Put(s, id, l.(phase := Ending, feeding := false)) else s
  }

  lemma OwnStep(s: State, capacity: nat, m: Move)
    requires Own(m)
    ensures Step(s, capacity, m) == if m.id < |s.leases| then LeaseStep(s, capacity, m, s.leases[m.id]) else s
  {
    hide LeaseStep;
  }

  /** A lease queues a salt while it holds the turn, neither stopped nor halted, and
      the open intake has room. */
  predicate Sends(s: State, capacity: nat, m: Move)
    requires Own(m) && m.id < |s.leases|
  {
    var l := s.leases[m.id];
    && m.Send? && l.phase == Feeding && l.sent < l.salts && !l.stopped && !l.halted
    && s.intakeOpen && |s.log| - s.taken < capacity
  }

  /** Exactly when a step of a lease starts a new round, and when it queues a salt
      and which. */
  lemma StepQueues(s: State, capacity: nat, m: Move)
    requires Own(m) && m.id < |s.leases|
    ensures var l, r := s.leases[m.id], Step(s, capacity, m);
            && r.round == s.round
                          + (if l.stopped && ((m.GiveUp? && l.phase == Waiting)
                                              || (m.EndFeeding? && l.phase == Feeding && l.sent < l.salts))
                             then 1 else 0)
            && r.log == s.log
                        + (if Sends(s, capacity, m) then [Salt(m.id, l.sent, l.round)] else [])
  {
    OwnStep(s, capacity, m);
    hide Step, Without;
  }

  /** Exactly when it ends its report, and how. */
  lemma StepReports(s: State, capacity: nat, m: Move)
    requires Own(m) && m.id < |s.leases|
    ensures |Step(s, capacity, m).leases| == |s.leases|
    ensures var l := s.leases[m.id];
            Step(s, capacity, m).leases[m.id].report
            == if l.phase == Waiting && m.GiveUp? && (l.stopped || !s.runnerLive) then Quit
               else if l.phase == Waiting || l.report != Reporting then l.report
               else if m.QuitReport? then Quit
               else if m.Finish? && !l.feeding && |l.reported| == l.fed then ReportedAll
               else Reporting
  {
    OwnStep(s, capacity, m);
    hide Step, Without;
    match m
    case Stop(_) =>
    case Grant(_) =>
    case GiveUp(_) =>
    case Send(_) =>
    case Finish(_) =>
    case QuitReport(_) =>
    case EndFeeding(_) =>
    case _ =>
  }

  /** It touches no other lease, and only being stopped stops it. */
  lemma StepOnlyOwn(s: State, capacity: nat, m: Move, i: nat)
    requires Own(m) && m.id < |s.leases| && i < |s.leases|
    ensures |Step(s, capacity, m).leases| == |s.leases|
    ensures i != m.id ==> Step(s, capacity, m).leases[i] == s.leases[i]
    ensures Step(s, capacity, m).leases[i].stopped <==> s.leases[i].stopped || m == Stop(i)
  {
    OwnStep(s, capacity, m);
    hide Step, Without;
  }

  /** Exactly when it counts the salt it just queued, and what it has counted. */
  lemma StepCounts(s: State, capacity: nat, m: Move)
    requires Own(m) && m.id < |s.leases|
    ensures |Step(s, capacity, m).leases| == |s.leases|
    ensures var l, r := s.leases[m.id], Step(s, capacity, m).leases[m.id];
            && (r.phase == Counting <==> Sends(s, capacity, m) || (l.phase == Counting && !m.CountSent?))
            && r.sent == l.sent + (if Sends(s, capacity, m) then 1 else 0)
            && r.fed == l.fed + (if m.CountSent? && l.phase == Counting then 1 else 0)
  {
    OwnStep(s, capacity, m);
    hide Step, Without;
    match m
    case Stop(_) =>
    case Grant(_) =>
    case GiveUp(_) =>
    case Send(_) =>
    case CountSent(_) =>
    case Hand(_) =>
    case LeaveTurn(_) =>
    case EndFeeding(_) =>
    case _ =>
  }

  /** Exactly when it waits, has handed its turn on, or is gone. */
  lemma StepPhases(s: State, capacity: nat, m: Move)
    requires Own(m) && m.id < |s.leases|
    ensures |Step(s, capacity, m).leases| == |s.leases|
    ensures var l, r := s.leases[m.id], Step(s, capacity, m).leases[m.id];
            && (r.phase == Waiting <==>
                  && l.phase == Waiting && !(m.Grant? && s.line.AtFront(m.id))
                  && !(m.GiveUp? && (l.stopped || !s.runnerLive)))
            && (r.phase == Handed <==>
                  (l.phase == Handed && !m.EndFeeding?) || (m.Hand? && l.phase == Feeding && l.sent == l.salts))
            && (r.phase == Gone <==>
                  || l.phase == Gone || (m.GiveUp? && l.phase == Waiting && (l.stopped || !s.runnerLive))
                  || (m.EndFeeding? && l.phase == Handed) || (m.LeaveTurn? && l.phase == Ending))
  {
    OwnStep(s, capacity, m);
    hide Step, Without;
    match m
    case Stop(_) =>
    case Grant(_) =>
    case GiveUp(_) =>
    case Send(_) =>
    case CountSent(_) =>
    case Hand(_) =>
    case LeaveTurn(_) =>
    case EndFeeding(_) =>
    case _ =>
  }

  /** Exactly when it ends its turn before its last salt is queued. */
  lemma StepEnds(s: State, capacity: nat, m: Move)
    requires Own(m) && m.id < |s.leases|
    ensures |Step(s, capacity, m).leases| == |s.leases|
    ensures var l, r := s.leases[m.id], Step(s, capacity, m).leases[m.id];
            && (r.phase == Ending <==>
                  || (l.phase == Ending && !m.LeaveTurn?)
                  || (l.phase == Feeding && l.sent < l.salts
                      && ((m.EndFeeding? && (l.stopped || l.halted)) || (m.CutOff? && !s.intakeOpen))))
  {
    OwnStep(s, capacity, m);
    hide Step, Without;
    match m
    case Stop(_) =>
    case Grant(_) =>
    case GiveUp(_) =>
    case Send(_) =>
    case Finish(_) =>
    case QuitReport(_) =>
    case EndFeeding(_) =>
    case _ =>
  }

  /** Exactly when the end of its report halts its feeder. */
  lemma StepHalts(s: State, capacity: nat, m: Move)
    requires Own(m) && m.id < |s.leases|
    ensures |Step(s, capacity, m).leases| == |s.leases|
    ensures var l, r := s.leases[m.id], Step(s, capacity, m).leases[m.id];
            (r.halted <==> l.halted || (l.report == Reporting && l.phase != Waiting
                                           && (m.QuitReport? || (m.Finish? && !l.feeding && |l.reported| == l.fed))))
  {
    OwnStep(s, capacity, m);
    hide Step, Without;
    match m
    case Stop(_) =>
    case Grant(_) =>
    case GiveUp(_) =>
    case Send(_) =>
    case Finish(_) =>
    case QuitReport(_) =>
    case EndFeeding(_) =>
    case _ =>
  }

  /** What the runner and the intake do: they take salts one by one, answer only what
      was taken and not yet answered, and change nothing else of a lease. */
  lemma StepOutside(s: State, capacity: nat, m: Move)
    requires !Own(m)
    ensures var r := Step(s, capacity, m);
            && r.log == s.log && r.round == s.round
            && r.taken == s.taken + (if m.Take? && s.taken < |s.log| then 1 else 0)
            && (r.runnerLive <==> if m.RunnerIs? then m.live else s.runnerLive)
            && (r.intakeOpen <==> s.intakeOpen && !m.CloseIntake?)
            && r.line == (if m.Join? then Joined(s.line) else s.line)
            && |r.leases| == |s.leases| + if m.Join? then 1 else 0
    ensures var r := Step(s, capacity, m);
            var answers := m.Answer? && m.k < s.taken <= |s.log| && s.log[m.k] !in s.answered && s.log[m.k].lease < |s.leases|;
            && r.answered == s.answered + (if answers then [s.log[m.k]] else [])
            && forall i :: 0 <= i < |s.leases| ==>
                 r.leases[i] == if answers && s.log[m.k].lease == i
                                then s.leases[i].(outcomes := s.leases[i].outcomes + [s.log[m.k].index]) else s.leases[i]
    ensures m.Join? ==>
              var l := Step(s, capacity, m).leases[|s.leases|];
              && l.salts == m.salts && l.phase == Waiting && l.sent == 0 && l.fed == 0 && l.feeding && !l.stopped && !l.halted
              && l.outcomes == [] && l.reported == [] && l.report == Reporting
  {
    hide LeaseStep;
  }

  /** Exactly when it leaves the line, and which round it gets with its turn. */
  lemma StepLeaves(s: State, capacity: nat, m: Move)
    requires Own(m) && m.id < |s.leases|
    ensures var l, r := s.leases[m.id], Step(s, capacity, m);
            && (r.line == if (m.GiveUp? && l.phase == Waiting && (l.stopped || !s.runnerLive))
                             || (m.Hand? && l.phase == Feeding && l.sent == l.salts)
                             || (m.LeaveTurn? && l.phase == Ending)
                          then s.line.(waiting := Without(s.line.waiting, m.id)) else s.line)
            && r.leases[m.id].round == (if m.Grant? && l.phase == Waiting && s.line.AtFront(m.id) then s.round else l.round)
  {
    OwnStep(s, capacity, m);
    hide Step, Without;
  }

  function Run(capacity: nat, moves: seq<Move>): State {
    if moves == [] then State(Line(0, []), [], 0, [], 0, [], true, true)
    else Step(Run(capacity, moves[..|moves| - 1]), capacity, moves[|moves| - 1])
  }

  /** At the start the runner lives, the intake is open, and nothing else is there. */
  lemma RunStarts(capacity: nat)
    ensures var s := Run(capacity, []);
            && s.runnerLive && s.intakeOpen && s.leases == [] && s.line.waiting == [] && s.log == [] && s.answered == []
            && s.taken == 0 && s.round == 0
  {
  }

  predicate Holds(p: Phase) {
    p == Feeding || p == Counting || p == Ending
  }

  predicate Distinct<T(==)>(s: seq<T>) {
    forall i, j :: 0 <= i < j < |s| ==> s[i] != s[j]
  }

  /** A lease's place in line, its counters and its outcomes. */
  predicate LeaseOk(s: State, id: nat)
    requires id < |s.leases|
  {
    var l := s.leases[id];
    && (l.phase == Waiting ==> id in s.line.waiting && l.sent == 0)
    && (Holds(l.phase) ==>
          && s.line.AtFront(id) && l.round <= s.round
          && forall k :: 0 <= k < |s.log| ==> s.log[k].round <= l.round)
    && (l.phase == Handed || l.phase == Gone ==> id !in s.line.waiting)
    && l.sent == l.fed + (if l.phase == Counting then 1 else 0)
    && (l.feeding <==> l.phase != Ending && l.phase != Gone)
    && l.sent <= l.salts
    && Distinct(l.reported + l.outcomes)
    && (forall i :: 0 <= i < |l.reported + l.outcomes| ==>
          (l.reported + l.outcomes)[i] < l.sent && Known(s, id, (l.reported + l.outcomes)[i]))
    && (l.report == ReportedAll ==> !l.feeding && |l.reported| == l.sent)
    && (forall index: nat :: index < l.sent ==> Salt(id, index, l.round) in s.log)
  }

  /** The runner answered this salt. */
  predicate Known(s: State, id: nat, index: nat) {
    exists i :: 0 <= i < |s.answered| && s.answered[i].lease == id && s.answered[i].index == index
  }

  /** Salts enter lease by lease, in order of joining, each lease's from zero up,
      and rounds never decrease. Whoever still waits comes after all of them. */
  predicate LogOk(s: State) {
    && s.taken <= |s.log|
    && (forall k :: 0 <= k < |s.log| ==> EntryOk(s, s.log[k]))
    && (forall i, j :: 0 <= i < j < |s.log| ==> Before(s.log[i], s.log[j]))
    && (forall k, w :: 0 <= k < |s.log| && 0 <= w < |s.line.waiting| ==> s.log[k].lease <= s.line.waiting[w])
  }

  predicate EntryOk(s: State, e: Salt) {
    && e.lease < |s.leases| && e.index < s.leases[e.lease].sent && e.round <= s.round
    && s.leases[e.lease].phase != Waiting && e.round == s.leases[e.lease].round
  }

  predicate Before(a: Salt, b: Salt) {
    && a.round <= b.round
    && (a.lease < b.lease || (a.lease == b.lease && a.index < b.index))
  }

  predicate Ok(s: State) {
    && s.line.Ok() && s.line.nextId == |s.leases|
    && (forall id: nat :: id < |s.leases| ==> LeaseOk(s, id))
    && LogOk(s)
    && (forall i :: 0 <= i < |s.answered| ==> s.answered[i] in s.log)
  }

  // Every step keeps it.

  /** What a lease that does not move needs of a step. */
  predicate Undisturbed(s: State, now: State, id: nat)
    requires id < |s.leases|
  {
    && id < |now.leases| && now.leases[id] == s.leases[id]
    && (id in s.line.waiting ==> id in now.line.waiting)
    && (id !in s.line.waiting ==> id !in now.line.waiting)
    && (s.line.AtFront(id) ==> now.line.AtFront(id))
    && s.round <= now.round && s.answered <= now.answered && s.log <= now.log
    && (Holds(s.leases[id].phase) ==> now.log == s.log)
  }

  lemma KnownStays(s: State, now: State, id: nat, index: nat)
    requires Known(s, id, index) && s.answered <= now.answered
    ensures Known(now, id, index)
  {
    var i :| 0 <= i < |s.answered| && s.answered[i].lease == id && s.answered[i].index == index;
    assert now.answered[i] == s.answered[i];
  }

  lemma UndisturbedOk(s: State, now: State, id: nat)
    requires id < |s.leases| && LeaseOk(s, id) && Undisturbed(s, now, id)
    ensures LeaseOk(now, id)
  {
    var l := s.leases[id];
    forall i | 0 <= i < |l.reported + l.outcomes|
      ensures Known(now, id, (l.reported + l.outcomes)[i])
    {
      KnownStays(s, now, id, (l.reported + l.outcomes)[i]);
    }
    forall index: nat | index < l.sent
      ensures Salt(id, index, l.round) in now.log
    {
      var k :| 0 <= k < |s.log| && s.log[k] == Salt(id, index, l.round);
      assert now.log[k] == s.log[k];
    }
    hide Known, Distinct;
  }

  /** A log that does not grow stays in order while the line only loses leases,
      rounds only grow and logged leases keep their round. */
  lemma LogStays(s: State, now: State)
    requires LogOk(s) && now.log == s.log && s.taken <= now.taken <= |s.log| && s.round <= now.round
    requires |s.leases| <= |now.leases|
    requires forall id: nat :: id < |s.leases| ==>
               && now.leases[id].sent >= s.leases[id].sent
               && (s.leases[id].phase != Waiting ==>
                     now.leases[id].phase != Waiting && now.leases[id].round == s.leases[id].round)
    requires forall x :: x in now.line.waiting ==> x in s.line.waiting || forall k :: 0 <= k < |s.log| ==> s.log[k].lease <= x
    ensures LogOk(now)
  {
    forall k, w | 0 <= k < |now.log| && 0 <= w < |now.line.waiting|
      ensures now.log[k].lease <= now.line.waiting[w]
    {
      assert now.line.waiting[w] in now.line.waiting;
    }
    forall k | 0 <= k < |now.log|
      ensures EntryOk(now, now.log[k])
    {
      assert EntryOk(s, s.log[k]);
    }
    hide Before, EntryOk;
  }

  lemma JoinOk(s: State, capacity: nat, salts: nat)
    requires Ok(s)
    ensures Ok(Step(s, capacity, Join(salts)))
  {
    hide LeaseOk, LogOk;
    var now := Step(s, capacity, Join(salts));
    forall id: nat | id < |now.leases|
      ensures LeaseOk(now, id)
    {
      if id < |s.leases| {
        UndisturbedOk(s, now, id);
      } else {
        JoinedLease(s, salts);
      }
    }
    forall k | 0 <= k < |s.log|
      ensures s.log[k].lease <= |s.leases|
    {
      EntryAt(s, k);
    }
    TakenLogged(s);
    LogStays(s, now);
  }

  lemma TakenLogged(s: State)
    requires LogOk(s)
    ensures s.taken <= |s.log|
  {
  }

  lemma JoinedLease(s: State, salts: nat)
    requires s.line.nextId == |s.leases|
    ensures LeaseOk(Step(s, 0, Join(salts)), |s.leases|)
  {
  }

  /** The runner takes a salt, or it or the intake's end comes or goes. */
  lemma TakeOk(s: State, capacity: nat, m: Move)
    requires Ok(s) && (m.Take? || m.RunnerIs? || m.CloseIntake?)
    ensures Ok(Step(s, capacity, m))
  {
    var now := Step(s, capacity, m);
    forall id: nat | id < |now.leases|
      ensures LeaseOk(now, id)
    {
      UndisturbedOk(s, now, id);
    }
    hide LeaseOk;
    LogStays(s, now);
  }

  /** A lease's salt is known by its index. */
  lemma KnownAnswered(s: State, salt: Salt)
    requires Ok(s) && salt in s.log && Known(s, salt.lease, salt.index)
    ensures salt in s.answered
  {
    var a :| 0 <= a < |s.answered| && s.answered[a].lease == salt.lease && s.answered[a].index == salt.index;
    var k :| 0 <= k < |s.log| && s.log[k] == salt;
    var j :| 0 <= j < |s.log| && s.log[j] == s.answered[a];
    assert EntryOk(s, s.log[k]) && EntryOk(s, s.log[j]);
  }

  /** A salt answered for the first time is new to its lease. */
  lemma NewOutcome(s: State, salt: Salt)
    requires Ok(s) && salt in s.log && salt !in s.answered
    ensures salt.lease < |s.leases| && salt.index < s.leases[salt.lease].sent
    ensures salt.index !in s.leases[salt.lease].reported + s.leases[salt.lease].outcomes
  {
    var k :| 0 <= k < |s.log| && s.log[k] == salt;
    assert EntryOk(s, s.log[k]);
    assert LeaseOk(s, salt.lease);
    if Known(s, salt.lease, salt.index) {
      KnownAnswered(s, salt);
    }
  }

  lemma AnsweredLease(s: State, now: State, salt: Salt)
    requires salt.lease < |s.leases| && LeaseOk(s, salt.lease)
    requires salt.index < s.leases[salt.lease].sent
    requires salt.index !in s.leases[salt.lease].reported + s.leases[salt.lease].outcomes
    requires var l := s.leases[salt.lease];
             now == Put(s.(answered := s.answered + [salt]), salt.lease, l.(outcomes := l.outcomes + [salt.index]))
    ensures LeaseOk(now, salt.lease)
  {
    var l := s.leases[salt.lease];
    var had := l.reported + l.outcomes;
    assert l.reported + (l.outcomes + [salt.index]) == had + [salt.index];
    assert now.answered[|s.answered|] == salt;
    forall i | 0 <= i < |had|
      ensures Known(now, salt.lease, had[i])
    {
      KnownStays(s, now, salt.lease, had[i]);
    }
    assert Known(now, salt.lease, salt.index);
    hide Known;
  }

  lemma AnswerOk(s: State, capacity: nat, k: nat)
    requires Ok(s)
    ensures Ok(Step(s, capacity, Answer(k)))
  {
    hide LeaseOk, Known, LogOk, Before;
    var now := Step(s, capacity, Answer(k));
    if now != s {
      var salt := s.log[k];
      NewOutcome(s, salt);
      AnsweredLease(s, now, salt);
      forall id: nat | id < |now.leases| && id != salt.lease
        ensures LeaseOk(now, id)
      {
        UndisturbedOk(s, now, id);
      }
      LogStays(s, now);
    }
  }

  // Steps of one lease.

  /** A lease moved on, with the line and log as `now` has them. */
  lemma LeaseMoved(s: State, now: State, id: nat)
    requires Ok(s) && id < |s.leases| && |now.leases| == |s.leases|
    requires now.line.Ok() && now.line.nextId == s.line.nextId && now.answered == s.answered
    requires LeaseOk(now, id) && LogOk(now)
    requires forall other: nat :: other < |s.leases| && other != id ==> Undisturbed(s, now, other)
    requires s.log <= now.log
    ensures Ok(now)
  {
    forall other: nat | other < |now.leases|
      ensures LeaseOk(now, other)
    {
      if other != id {
        UndisturbedOk(s, now, other);
      }
    }
    hide LeaseOk, LogOk, Undisturbed;
    forall i | 0 <= i < |now.answered|
      ensures now.answered[i] in now.log
    {
      var k :| 0 <= k < |s.log| && s.log[k] == s.answered[i];
      assert now.log[k] == s.log[k];
    }
  }

  /** Fields of a lease that the line, the log and the runner do not know of. */
  lemma Private(s: State, id: nat, l: Lease, round: nat)
    requires Ok(s) && id < |s.leases| && round >= s.round
    requires var now := Put(s, id, l).(round := round);
             LeaseOk(now, id) && l.sent == s.leases[id].sent
             && (s.leases[id].phase != Waiting ==> l.phase != Waiting && l.round == s.leases[id].round)
    ensures Ok(Put(s, id, l).(round := round))
  {
    var now := Put(s, id, l).(round := round);
    hide LeaseOk;
    LogStays(s, now);
    LeaseMoved(s, now, id);
  }

  /** The same, leaving the line. */
  lemma PrivateLeave(s: State, id: nat, l: Lease, round: nat)
    requires Ok(s) && id < |s.leases| && round >= s.round
    requires var now := Leave(Put(s, id, l), id).(round := round);
             LeaseOk(now, id) && l.sent == s.leases[id].sent
             && (s.leases[id].phase != Waiting ==> l.phase != Waiting && l.round == s.leases[id].round)
    ensures Ok(Leave(Put(s, id, l), id).(round := round))
  {
    var now := Leave(Put(s, id, l), id).(round := round);
    hide LeaseOk;
    WithoutIs(s.line.waiting, id);
    LeaveLine(s.line, id, id + 1);
    forall other: nat | other < |s.leases| && other != id
      ensures Undisturbed(s, now, other)
    {
      LeaveLine(s.line, id, other);
    }
    LogStays(s, now);
    LeaseMoved(s, now, id);
  }

  /** A lease whose outcomes and counters stay is in order again if its phase,
      turn, round and flags are. */
  lemma SamePast(s: State, now: State, id: nat)
    requires id < |s.leases| && id < |now.leases| && LeaseOk(s, id)
    requires now.answered == s.answered && now.log == s.log
    requires var l, m := s.leases[id], now.leases[id];
             && m.sent == l.sent && m.salts == l.salts && m.reported == l.reported && m.outcomes == l.outcomes
             && (l.sent > 0 ==> m.round == l.round)
             && (m.phase == Waiting ==> id in now.line.waiting && m.sent == 0)
             && (Holds(m.phase) ==>
                   now.line.AtFront(id) && m.round <= now.round
                   && forall k :: 0 <= k < |now.log| ==> now.log[k].round <= m.round)
             && (m.phase == Handed || m.phase == Gone ==> id !in now.line.waiting)
             && m.sent == m.fed + (if m.phase == Counting then 1 else 0)
             && (m.feeding <==> m.phase != Ending && m.phase != Gone)
             && (m.report == ReportedAll ==> !m.feeding && |m.reported| == m.sent)
    ensures LeaseOk(now, id)
  {
    var l := s.leases[id];
    forall i | 0 <= i < |l.reported + l.outcomes|
      ensures Known(now, id, (l.reported + l.outcomes)[i])
    {
      KnownStays(s, now, id, (l.reported + l.outcomes)[i]);
    }
    hide Known, Distinct;
  }

  lemma SendOk(s: State, capacity: nat, id: nat)
    requires Ok(s) && id < |s.leases|
    ensures Ok(LeaseStep(s, capacity, Send(id), s.leases[id]))
  {
    var l, now := s.leases[id], LeaseStep(s, capacity, Send(id), s.leases[id]);
    if now != s {
      assert LeaseOk(s, id);
      SentLogOk(s, now, id);
      SentLeaseOk(s, now, id);
      forall other: nat | other < |s.leases| && other != id
        ensures Undisturbed(s, now, other)
      {
        assert LeaseOk(s, other);
      }
      hide LeaseOk, LogOk, Undisturbed;
      LeaseMoved(s, now, id);
    }
  }

  lemma SentLeaseOk(s: State, now: State, id: nat)
    requires Ok(s) && id < |s.leases| && s.leases[id].phase == Feeding && s.leases[id].sent < s.leases[id].salts
    requires var l := s.leases[id];
             now == Put(s, id, l.(phase := Counting, sent := l.sent + 1)).(log := s.log + [Salt(id, l.sent, l.round)])
    ensures LeaseOk(now, id)
  {
    var l := s.leases[id];
    assert LeaseOk(s, id);
    forall i | 0 <= i < |l.reported + l.outcomes|
      ensures Known(now, id, (l.reported + l.outcomes)[i])
    {
      KnownStays(s, now, id, (l.reported + l.outcomes)[i]);
    }
    hide Known, Distinct;
  }

  lemma SentLogOk(s: State, now: State, id: nat)
    requires Ok(s) && id < |s.leases| && s.leases[id].phase == Feeding && s.leases[id].sent < s.leases[id].salts
    requires var l := s.leases[id];
             now == Put(s, id, l.(phase := Counting, sent := l.sent + 1)).(log := s.log + [Salt(id, l.sent, l.round)])
    ensures LogOk(now)
  {
    assert LeaseOk(s, id);
    var salt := Salt(id, s.leases[id].sent, s.leases[id].round);
    forall k | 0 <= k < |now.log|
      ensures EntryOk(now, now.log[k]) && (k < |s.log| ==> Before(now.log[k], salt))
    {
      if k < |s.log| {
        assert EntryOk(s, s.log[k]);
        assert s.log[k].lease <= s.line.waiting[0];
      }
    }
    forall k, w | 0 <= k < |now.log| && 0 <= w < |now.line.waiting|
      ensures now.log[k].lease <= now.line.waiting[w]
    {
      assert w > 0 ==> s.line.waiting[0] < s.line.waiting[w];
    }
    hide Before, EntryOk, LeaseOk;
  }

  lemma ReadOk(s: State, capacity: nat, id: nat)
    requires Ok(s) && id < |s.leases|
    ensures Ok(LeaseStep(s, capacity, Read(id), s.leases[id]))
  {
    var l, now := s.leases[id], LeaseStep(s, capacity, Read(id), s.leases[id]);
    if now != s {
      assert LeaseOk(s, id);
      var m := now.leases[id];
      assert m.reported + m.outcomes == l.reported + l.outcomes;
      forall i | 0 <= i < |l.reported + l.outcomes|
        ensures Known(now, id, (l.reported + l.outcomes)[i])
      {
        KnownStays(s, now, id, (l.reported + l.outcomes)[i]);
      }
      assert LeaseOk(now, id) by {
        hide Known, Distinct;
      }
      Private(s, id, m, s.round);
    }
  }

  lemma LeaseStepOk(s: State, capacity: nat, m: Move)
    requires Ok(s) && Own(m) && m.id < |s.leases|
    ensures Ok(LeaseStep(s, capacity, m, s.leases[m.id]))
  {
    hide LeaseOk, LogOk, LeaseStep, Line.Ok;
    var id, l, now := m.id, s.leases[m.id], LeaseStep(s, capacity, m, s.leases[m.id]);
    if m.Send? {
      SendOk(s, capacity, id);
    } else if m.Read? {
      ReadOk(s, capacity, id);
    } else if now != s {
      MovesOn(s, capacity, m);
      if m.GiveUp? || m.Hand? || m.LeaveTurn? {
        PrivateLeave(s, id, now.leases[id], now.round);
      } else {
        Private(s, id, now.leases[id], now.round);
      }
    }
  }

  /** Any other step of a lease leaves its outcomes, its count of salts and the
      log, and keeps the lease itself in order. */
  lemma MovesOn(s: State, capacity: nat, m: Move)
    requires Ok(s) && Own(m) && m.id < |s.leases| && !m.Send? && !m.Read? && LeaseStep(s, capacity, m, s.leases[m.id]) != s
    ensures var id, now := m.id, LeaseStep(s, capacity, m, s.leases[m.id]);
            && |now.leases| == |s.leases| && now.round >= s.round && LeaseOk(now, id)
            && now == (if m.GiveUp? || m.Hand? || m.LeaveTurn? then Leave(Put(s, id, now.leases[id]), id)
                       else Put(s, id, now.leases[id])).(round := now.round)
            && now.leases[id].sent == s.leases[id].sent
            && (s.leases[id].phase != Waiting ==>
                  now.leases[id].phase != Waiting && now.leases[id].round == s.leases[id].round)
  {
    hide LeaseOk, LogOk, Without, Line.Ok;
    var id, now := m.id, LeaseStep(s, capacity, m, s.leases[m.id]);
    LeaseFields(s, id);
    OkWithout(s, id);
    LogRounds(s);
    SamePast(s, now, id);
  }

  lemma OkWithout(s: State, id: nat)
    requires Ok(s)
    ensures id !in Without(s.line.waiting, id)
    ensures s.line.AtFront(id) ==> id in s.line.waiting
  {
    WithoutIs(s.line.waiting, id);
  }

  /** What `SamePast` needs to know of the lease before. */
  lemma LeaseFields(s: State, id: nat)
    requires id < |s.leases| && LeaseOk(s, id)
    ensures var l := s.leases[id];
            && (l.phase == Waiting ==> id in s.line.waiting && l.sent == 0)
            && (Holds(l.phase) ==>
                  && s.line.AtFront(id) && l.round <= s.round
                  && forall k :: 0 <= k < |s.log| ==> s.log[k].round <= l.round)
            && (l.phase == Handed || l.phase == Gone ==> id !in s.line.waiting)
            && l.sent == l.fed + (if l.phase == Counting then 1 else 0)
            && (l.feeding <==> l.phase != Ending && l.phase != Gone)
            && (l.report == ReportedAll ==> !l.feeding && |l.reported| == l.sent)
  {
    hide Known, Distinct;
  }

  lemma LogRounds(s: State)
    requires LogOk(s)
    ensures forall k :: 0 <= k < |s.log| ==> s.log[k].round <= s.round
  {
    forall k | 0 <= k < |s.log|
      ensures s.log[k].round <= s.round
    {
      assert EntryOk(s, s.log[k]);
    }
  }

  /** Whatever steps are taken, in whatever order: the line is in order and held
      by its front; salts are in the channel lease by lease; outcomes are new. */
  lemma {:induction false} RunOk(capacity: nat, moves: seq<Move>)
    ensures Ok(Run(capacity, moves))
  {
    if moves != [] {
      var s, m := Run(capacity, moves[..|moves| - 1]), moves[|moves| - 1];
      RunOk(capacity, moves[..|moves| - 1]);
      match m
      case Join(salts) => JoinOk(s, capacity, salts);
      case Take => TakeOk(s, capacity, m);
      case RunnerIs(live) => TakeOk(s, capacity, m);
      case CloseIntake => TakeOk(s, capacity, m);
      case Answer(k) => AnswerOk(s, capacity, k);
      case _ =>
        if m.id < |s.leases| {
          LeaseStepOk(s, capacity, m);
        }
    }
  }

  // What that means.

  /** At most one lease feeds at a time. */
  lemma OneFeeds(capacity: nat, moves: seq<Move>, a: nat, b: nat)
    requires var s := Run(capacity, moves);
             && a < |s.leases| && b < |s.leases|
             && Holds(s.leases[a].phase) && Holds(s.leases[b].phase)
    ensures a == b
  {
    RunOk(capacity, moves);
    var s := Run(capacity, moves);
    assert LeaseOk(s, a) && LeaseOk(s, b);
  }

  lemma EarlierIndex(s: State, k: nat, j: nat)
    requires LogOk(s) && k < |s.log| && j < |s.log|
    requires s.log[k].lease == s.log[j].lease && s.log[k].index < s.log[j].index
    ensures k < j
  {
    LogOrder(s, j, k);
    hide LogOk;
  }

  lemma LogOrder(s: State, j: nat, k: nat)
    requires LogOk(s)
    ensures j < k < |s.log| ==> Before(s.log[j], s.log[k])
  {
  }

  /** Salts enter the channel in contiguous blocks, leases in order of joining,
      each lease's salts one after another; rounds never decrease along it. */
  lemma Blocks(capacity: nat, moves: seq<Move>, i: nat)
    requires i + 1 < |Run(capacity, moves).log|
    ensures var a, b := Run(capacity, moves).log[i], Run(capacity, moves).log[i + 1];
            && a.round <= b.round
            && (a.lease == b.lease ==> b.index == a.index + 1)
            && (a.lease != b.lease ==> a.lease < b.lease && b.index == 0)
  {
    hide Ok, Run;
    RunOk(capacity, moves);
    BlocksOf(Run(capacity, moves), i);
  }

  lemma BlocksOf(s: State, i: nat)
    requires Ok(s) && i + 1 < |s.log|
    ensures var a, b := s.log[i], s.log[i + 1];
            && a.round <= b.round
            && (a.lease == b.lease ==> b.index == a.index + 1)
            && (a.lease != b.lease ==> a.lease < b.lease && b.index == 0)
  {
    hide LeaseOk, LogOk;
    var a, b := s.log[i], s.log[i + 1];
    LogOrder(s, i, i + 1);
    EntryAt(s, i + 1);
    if b.index > 0 {
      SaltLogged(s, b.lease, b.index - 1);
      var k :| 0 <= k < |s.log| && s.log[k] == Salt(b.lease, b.index - 1, b.round);
      EarlierIndex(s, k, i + 1);
      LogOrder(s, k, i);
    }
  }

  lemma EntryAt(s: State, k: nat)
    requires LogOk(s) && k < |s.log|
    ensures EntryOk(s, s.log[k])
  {
    hide EntryOk, Before;
  }

  lemma SaltLogged(s: State, id: nat, index: nat)
    requires Ok(s) && id < |s.leases| && index < s.leases[id].sent
    ensures Salt(id, index, s.leases[id].round) in s.log
  {
    hide LogOk;
    assert LeaseOk(s, id);
  }

  /** `n` different numbers below `n` are all of them. */
  lemma {:induction false} AllBelow(s: seq<nat>, n: nat, x: nat)
    requires Distinct(s) && |s| == n && x < n && forall i :: 0 <= i < |s| ==> s[i] < n
    ensures x in s
  {
    if x !in s {
      Crowded(s + [x], n);
    }
  }

  /** Different numbers below `n` are at most `n`. */
  lemma {:induction false} Crowded(s: seq<nat>, n: nat)
    requires Distinct(s) && forall i :: 0 <= i < |s| ==> s[i] < n
    ensures |s| <= n
    decreases n
  {
    if s != [] {
      assert s[0] < n;
      if i :| 0 <= i < |s| && s[i] == n - 1 {
        Crowded(s[..i] + s[i + 1..], n - 1);
      } else {
        Crowded(s, n - 1);
      }
    }
  }

  /** When a report ends normally every queued salt has been reported, each
      exactly once. */
  lemma ReportedExactly(capacity: nat, moves: seq<Move>, id: nat, index: nat)
    requires id < |Run(capacity, moves).leases| && Run(capacity, moves).leases[id].report == ReportedAll
    ensures var l := Run(capacity, moves).leases[id];
            && multiset(l.reported)[index] == (if index < l.sent then 1 else 0)
            && l.sent == l.fed && !l.feeding
  {
    RunOk(capacity, moves);
    var s := Run(capacity, moves);
    var l := s.leases[id];
    assert LeaseOk(s, id);
    var all := l.reported + l.outcomes;
    assert forall i :: 0 <= i < |l.reported| ==> l.reported[i] == all[i];
    if index < l.sent {
      AllBelow(l.reported, l.sent, index);
    }
    AtMostOnce(l.reported, index);
  }

  lemma {:induction false} AtMostOnce(s: seq<nat>, x: nat)
    requires Distinct(s)
    ensures multiset(s)[x] == if x in s then 1 else 0
  {
    if s != [] {
      var rest, last := s[..|s| - 1], s[|s| - 1];
      AtMostOnce(rest, x);
      assert s == rest + [last];
      assert last !in rest;
    }
  }
}
