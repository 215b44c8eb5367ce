/**
 * The two-deep batch stream (src/streaming.rs, src/sampler.rs): at most two
 * batches, one unfinished chunk each, and every dequeued job answered once.
 * Between any two of its steps the environment may add jobs, raise the cancel
 * level, close either end, or change what clocks, sensors and the device say.
 */
module Streaming {
  import opened Chunks
  import opened Counts
  import opened Wrappers

  datatype Outcome = Done | EmptyDone | Capacity | DeviceFault | Cancelled

  datatype Answer = Answer(job: Job, outcome: Outcome)

  datatype Status = Unfinished | Completed | Faulted

  /** A prepared batch; command `k` runs chunk `k` of the plan. */
  datatype Batch = Batch(jobs: seq<Job>, plan: seq<Chunk>, cmds: seq<Status>)

  /** Why encoding or harvesting a batch failed, if it did. */
  datatype Refusal = TooLarge | Driver

  /** What that is to the jobs of the batch. */
  function Rejection(refusal: Refusal): (o: Outcome)
    ensures (o == Capacity <==> refusal.TooLarge?) && (o == DeviceFault <==> refusal.Driver?)
  {
    if refusal == TooLarge then Capacity else DeviceFault
  }

  /** What clocks, sensors and the device say at the moment. */
  datatype Oracle = Oracle(
    throttle: bool, scale: real, timeUp: bool, nominal: nat, betas: nat, limit: nat,
    encode: Option<Refusal>, deviceOk: bool, harvest: Option<Refusal>)

  datatype Env = Env(input: seq<Job>, inputClosed: bool, outClosed: bool, level: nat, say: Oracle)

  datatype Move = Offer(job: Job) | CloseInput | CloseOut | CancelBelow(level: nat) | Say(say: Oracle)

  function Moved(v: Env, m: Move): (r: Env)
    ensures r.level >= v.level && (v.outClosed ==> r.outClosed) && (v.inputClosed ==> r.inputClosed)
  {
    match m
    case Offer(job) => if v.inputClosed then v else v.(input := v.input + [job])
    case CloseInput => v.(inputClosed := true)
    case CloseOut => v.(outClosed := true)
    case CancelBelow(level) => v.(level := Max(v.level, level))
    case Say(say) => v.(say := say)
  }

  /** Jobs arrive while the input is open. */
  lemma OffersArrive(v: Env, m: Move)
    ensures Moved(v, m).input == v.input + if m.Offer? && !v.inputClosed then [m.job] else []
    ensures Moved(v, m).inputClosed <==> v.inputClosed || m.CloseInput?
    ensures Moved(v, m).outClosed <==> v.outClosed || m.CloseOut?
    ensures Moved(v, m).level == if m.CancelBelow? && m.level > v.level then m.level else v.level
    ensures Moved(v, m).say == if m.Say? then m.say else v.say
  {
  }

  function MovedAll(v: Env, moves: seq<Move>): (r: Env)
    ensures r.level >= v.level && (v.outClosed ==> r.outClosed) && (v.inputClosed ==> r.inputClosed)
  {
    if moves == [] then v else Moved(MovedAll(v, moves[..|moves| - 1]), moves[|moves| - 1])
  }

  /** The loop's variables: the stashed job, jobs in `hand` while a batch is
      formed or finished, the batch being waited on, the batches in flight; and
      the record: jobs `received`, `answers` attempted, jobs `lost` because the
      output closed, batches whose reads were `harvested`. */
  datatype State = State(
    env: Env, pending: Option<Job>, hand: seq<Job>, current: Option<Batch>, inflight: seq<Batch>,
    received: seq<Job>, answers: seq<Answer>, lost: seq<Job>, harvested: seq<Batch>)

  function Answered(answers: seq<Answer>): (jobs: seq<Job>)
    ensures |jobs| == |answers|
  {
    seq(|answers|, i requires 0 <= i < |answers| => answers[i].job)
  }

  function Stashed(pending: Option<Job>): seq<Job> {
    if pending.Some? then [pending.value] else []
  }

  function JobsIn(batch: Option<Batch>): seq<Job> {
    if batch.Some? then batch.value.jobs else []
  }

  function Flat(batches: seq<Batch>): seq<Job> {
    if batches == [] then [] else Flat(batches[..|batches| - 1]) + batches[|batches| - 1].jobs
  }

  /** Every received job is answered, lost, stashed, in hand or in a batch. */
  predicate ConservedAt(s: State, j: Job) {
    Count(s.received, j)
    == Count(Answered(s.answers), j) + Count(s.lost, j) + Count(Stashed(s.pending), j) + Count(s.hand, j)
       + Count(JobsIn(s.current), j) + Count(Flat(s.inflight), j)
  }

  ghost predicate Conserved(s: State) {
    && (forall j: Job :: ConservedAt(s, j))
    && (s.lost != [] ==> s.env.outClosed)
  }

  predicate SameKey(jobs: seq<Job>) {
    forall i, k :: 0 <= i < |jobs| && 0 <= k < |jobs| ==> KeyOf(jobs[i]) == KeyOf(jobs[k])
  }

  /** Chunks go out in plan order, each after its predecessor completed. */
  predicate Ordered(b: Batch) {
    && |b.cmds| <= |b.plan|
    && forall k :: 0 <= k < |b.cmds| - 1 ==> b.cmds[k] == Completed
  }

  /** Every chunk of the plan completed. */
  predicate Whole(b: Batch) {
    |b.cmds| == |b.plan| && forall k :: 0 <= k < |b.cmds| ==> b.cmds[k] == Completed
  }

  predicate BatchOk(b: Batch) {
    SameKey(b.jobs) && Ordered(b) && Reach(b.plan) > 0 && Consecutive(b.plan, Reach(b.plan))
  }

  /** At most two batches, each with at most its last chunk unfinished. */
  predicate TwoBatches(s: State) {
    && |s.inflight| + (if s.current.Some? then 1 else 0) <= 2
    && (s.current.Some? ==> BatchOk(s.current.value))
    && forall i :: 0 <= i < |s.inflight| ==> BatchOk(s.inflight[i])
  }

  /** Only cancelled jobs are reported cancelled; reads come only from batches
      whose whole plan completed. */
  predicate HonestAt(a: Answer, level: nat, harvested: seq<Batch>) {
    && (a.outcome == Cancelled ==> IsCancelled(level, a.job.watermark))
    && (a.outcome == Done ==> exists i :: 0 <= i < |harvested| && a.job in harvested[i].jobs)
  }

  predicate Honest(s: State) {
    && (forall i :: 0 <= i < |s.answers| ==> HonestAt(s.answers[i], s.env.level, s.harvested))
    && forall i :: 0 <= i < |s.harvested| ==> Whole(s.harvested[i])
  }

  /** What holds in every reachable state. */
  ghost predicate Inv(s: State) {
    Conserved(s) && TwoBatches(s) && Honest(s)
  }

  // Steps.

  /** The stashed job, or the next of the input, taken in hand. */
  function Unstash(s: State): State
    requires s.pending.Some?
  {
    s.(pending := None, hand := s.hand + [s.pending.value])
  }

  function Receive(s: State): State
    requires s.env.input != []
  {
    var job := s.env.input[0];
    s.(env := s.env.(input := s.env.input[1..]), received := s.received + [job], hand := s.hand + [job])
  }

  function Last(s: State): Job
    requires s.hand != []
  {
    s.hand[|s.hand| - 1]
  }

  function AnswerLast(s: State, outcome: Outcome): State
    requires s.hand != []
  {
    s.(hand := s.hand[..|s.hand| - 1], answers := s.answers + [Answer(Last(s), outcome)])
  }

  function AnswerFirst(s: State, outcome: Outcome): State
    requires s.hand != []
  {
    s.(hand := s.hand[1..], answers := s.answers + [Answer(s.hand[0], outcome)])
  }

  function StashLast(s: State): State
    requires s.hand != [] && s.pending.None?
  {
    s.(hand := s.hand[..|s.hand| - 1], pending := Some(Last(s)))
  }

  function Lose(s: State): State {
    s.(hand := [], lost := s.lost + s.hand)
  }

  /** The jobs in hand become a prepared batch with nothing submitted. */
  function Launch(s: State, plan: seq<Chunk>): State {
    s.(hand := [], inflight := s.inflight + [Batch(s.hand, plan, [])])
  }

  function Pop(s: State): State
    requires s.inflight != []
  {
    s.(current := Some(s.inflight[0]), inflight := s.inflight[1..])
  }

  function PushBack(s: State): State
    requires s.current.Some?
  {
    s.(current := None, inflight := s.inflight + [s.current.value])
  }

  function Unpack(s: State, harvest: bool): State
    requires s.current.Some? && s.hand == []
  {
    s.(current := None, hand := s.current.value.jobs,
       harvested := if harvest then s.harvested + [s.current.value] else s.harvested)
  }

  // What each keeps.

  lemma CountFlat(batches: seq<Batch>, b: Batch, j: Job)
    ensures Count(Flat(batches + [b]), j) == Count(Flat(batches), j) + Count(b.jobs, j)
  {
    assert (batches + [b])[..|batches|] == batches;
    CountConcat(Flat(batches), b.jobs, j);
  }

  lemma {:induction false} CountFlatHead(batches: seq<Batch>, j: Job)
    requires batches != []
    ensures Count(Flat(batches), j) == Count(batches[0].jobs, j) + Count(Flat(batches[1..]), j)
  {
    hide Count;
    var last := |batches| - 1;
    CountConcat(Flat(batches[..last]), batches[last].jobs, j);
    if last == 0 {
      assert batches[..0] == [] && batches[1..] == [];
    } else {
      CountFlatHead(batches[..last], j);
      assert batches[..last][1..] == batches[1..][..last - 1];
      CountConcat(Flat(batches[1..][..last - 1]), batches[last].jobs, j);
    }
  }

  lemma CountLast(s: seq<Job>, j: Job)
    requires s != []
    ensures Count(s, j) == Count(s[..|s| - 1], j) + if s[|s| - 1] == j then 1 else 0
  {
    assert s == s[..|s| - 1] + [s[|s| - 1]];
  }

  lemma AnsweredAppend(answers: seq<Answer>, a: Answer, j: Job)
    ensures Count(Answered(answers + [a]), j) == Count(Answered(answers), j) + if a.job == j then 1 else 0
  {
    assert Answered(answers + [a]) == Answered(answers) + [a.job];
  }

  lemma UnstashKeeps(s: State)
    requires Inv(s) && s.pending.Some?
    ensures Inv(Unstash(s))
  {
    hide Flat, Answered, JobsIn, BatchOk, HonestAt;
    forall j: Job
      ensures ConservedAt(Unstash(s), j)
    {
      assert ConservedAt(s, j);
      CountAppend(s.hand, s.pending.value, j);
    }
  }

  lemma ReceiveKeeps(s: State)
    requires Inv(s) && s.env.input != []
    ensures Inv(Receive(s))
  {
    hide Count, Stashed, Flat, Answered, JobsIn, BatchOk, HonestAt;
    forall j: Job
      ensures ConservedAt(Receive(s), j)
    {
      assert ConservedAt(s, j);
      CountAppend(s.hand, s.env.input[0], j);
      CountAppend(s.received, s.env.input[0], j);
    }
  }

  /** An answer may be given when it is true of the job. */
  predicate Fit(s: State, job: Job, outcome: Outcome) {
    HonestAt(Answer(job, outcome), s.env.level, s.harvested)
  }

  lemma AnswerLastKeeps(s: State, outcome: Outcome)
    requires Inv(s) && s.hand != [] && Fit(s, Last(s), outcome)
    ensures Inv(AnswerLast(s, outcome))
  {
    hide Count, Stashed, Flat, Answered, JobsIn, BatchOk, HonestAt;
    forall j: Job
      ensures ConservedAt(AnswerLast(s, outcome), j)
    {
      assert ConservedAt(s, j);
      CountLast(s.hand, j);
      AnsweredAppend(s.answers, Answer(Last(s), outcome), j);
    }
  }

  lemma AnswerFirstKeeps(s: State, outcome: Outcome)
    requires Inv(s) && s.hand != [] && Fit(s, s.hand[0], outcome)
    ensures Inv(AnswerFirst(s, outcome))
  {
    hide Count, Stashed, Flat, Answered, JobsIn, BatchOk, HonestAt;
    forall j: Job
      ensures ConservedAt(AnswerFirst(s, outcome), j)
    {
      assert ConservedAt(s, j);
      CountHead(s.hand, j);
      AnsweredAppend(s.answers, Answer(s.hand[0], outcome), j);
    }
  }

  lemma StashLastKeeps(s: State)
    requires Inv(s) && s.hand != [] && s.pending.None?
    ensures Inv(StashLast(s))
  {
    hide Flat, Answered, JobsIn, BatchOk, HonestAt;
    forall j: Job
      ensures ConservedAt(StashLast(s), j)
    {
      assert ConservedAt(s, j);
      CountLast(s.hand, j);
    }
  }

  lemma RotateKeeps(s: State)
    requires Inv(s) && s.hand != []
    ensures Inv(s.(hand := s.hand[1..] + [s.hand[0]]))
  {
    hide Count, Stashed, Flat, Answered, JobsIn, BatchOk, HonestAt;
    forall j: Job
      ensures ConservedAt(s.(hand := s.hand[1..] + [s.hand[0]]), j)
    {
      assert ConservedAt(s, j);
      CountHead(s.hand, j);
      CountAppend(s.hand[1..], s.hand[0], j);
    }
  }

  lemma LoseKeeps(s: State)
    requires Inv(s) && s.env.outClosed
    ensures Inv(Lose(s))
  {
    hide Stashed, Flat, Answered, JobsIn, BatchOk, HonestAt;
    forall j: Job
      ensures ConservedAt(Lose(s), j)
    {
      assert ConservedAt(s, j);
      CountConcat(s.lost, s.hand, j);
    }
  }

  lemma LaunchKeeps(s: State, plan: seq<Chunk>)
    requires Inv(s) && SameKey(s.hand) && Reach(plan) > 0 && Consecutive(plan, Reach(plan))
    requires |s.inflight| + (if s.current.Some? then 1 else 0) < 2
    ensures Inv(Launch(s, plan))
  {
    hide Stashed, Flat, Answered, SameKey, Consecutive, Reach, HonestAt;
    forall j: Job
      ensures ConservedAt(Launch(s, plan), j)
    {
      assert ConservedAt(s, j);
      CountFlat(s.inflight, Batch(s.hand, plan, []), j);
    }
  }

  lemma PopKeeps(s: State)
    requires Inv(s) && s.inflight != [] && s.current.None?
    ensures Inv(Pop(s))
  {
    hide Stashed, Flat, Answered, BatchOk, HonestAt;
    forall j: Job
      ensures ConservedAt(Pop(s), j)
    {
      assert ConservedAt(s, j);
      CountFlatHead(s.inflight, j);
    }
  }

  lemma PushBackKeeps(s: State)
    requires Inv(s) && s.current.Some?
    ensures Inv(PushBack(s))
  {
    hide Stashed, Flat, Answered, BatchOk, HonestAt;
    forall j: Job
      ensures ConservedAt(PushBack(s), j)
    {
      assert ConservedAt(s, j);
      CountFlat(s.inflight, s.current.value, j);
    }
  }

  lemma UnpackKeeps(s: State, harvest: bool)
    requires Inv(s) && s.current.Some? && s.hand == []
    requires harvest ==> Whole(s.current.value)
    ensures Inv(Unpack(s, harvest))
  {
    var now := Unpack(s, harvest);
    forall j: Job
      ensures ConservedAt(now, j)
    {
      assert ConservedAt(s, j);
    }
    forall i | 0 <= i < |s.answers|
      ensures HonestAt(s.answers[i], s.env.level, now.harvested)
    {
      assert HonestAt(s.answers[i], s.env.level, s.harvested);
      if k :| 0 <= k < |s.harvested| && s.answers[i].job in s.harvested[k].jobs {
        assert now.harvested[k] == s.harvested[k];
      }
    }
    hide ConservedAt, HonestAt, BatchOk, Whole;
  }

  /** The environment only adds jobs, raises the level and closes ends. */
  lemma MovesKeep(s: State, moves: seq<Move>)
    requires Inv(s)
    ensures Inv(s.(env := MovedAll(s.env, moves)))
  {
    var now := s.(env := MovedAll(s.env, moves));
    forall j: Job
      ensures ConservedAt(now, j)
    {
      assert ConservedAt(s, j);
    }
    forall i | 0 <= i < |s.answers|
      ensures HonestAt(s.answers[i], now.env.level, s.harvested)
    {
      assert HonestAt(s.answers[i], s.env.level, s.harvested);
    }
    hide ConservedAt, TwoBatches, HonestAt, MovedAll, Whole;
  }

  // The loop.

  predicate AnyCancelled(level: nat, jobs: seq<Job>) {
    exists i :: 0 <= i < |jobs| && IsCancelled(level, jobs[i].watermark)
  }

  /** Only the environment differs, and only forward. */
  predicate EnvOnly(s: State, r: State) {
    && r == s.(env := r.env)
    && r.env.level >= s.env.level && (s.env.outClosed ==> r.env.outClosed) && (s.env.inputClosed ==> r.env.inputClosed)
  }

  /** The same answer to each of several jobs, in order. */
  function Tagged(jobs: seq<Job>, outcome: Outcome): (answers: seq<Answer>)
    ensures |answers| == |jobs|
  {
    seq(|jobs|, i requires 0 <= i < |jobs| => Answer(jobs[i], outcome))
  }

  lemma TaggedHead(jobs: seq<Job>, n: nat, outcome: Outcome)
    requires n < |jobs|
    ensures Tagged(jobs[..n], outcome) + [Answer(jobs[n], outcome)] == Tagged(jobs[..n + 1], outcome)
  {
  }

  /** An answer given without a batch, for the reason it names. */
  predicate TurnedAway(a: Answer, maxNodes: nat) {
    match a.outcome
    case Cancelled => true
    case EmptyDone => a.job.nodes == 0
    case Capacity => a.job.nodes > maxNodes
    case _ => false
  }

  /** Only answers of that kind were added. */
  predicate OnlyTurned(before: seq<Answer>, after: seq<Answer>, maxNodes: nat) {
    before <= after && forall i :: |before| <= i < |after| ==> TurnedAway(after[i], maxNodes)
  }

  lemma OnlyTurnedNone(answers: seq<Answer>, maxNodes: nat)
    ensures OnlyTurned(answers, answers, maxNodes)
  {
  }

  lemma OnlyTurnedMore(before: seq<Answer>, after: seq<Answer>, a: Answer, maxNodes: nat)
    requires OnlyTurned(before, after, maxNodes) && TurnedAway(a, maxNodes)
    ensures OnlyTurned(before, after + [a], maxNodes)
  {
    hide TurnedAway;
  }

  /** Work waiting to be dequeued. */
  function Left(s: State): nat {
    |s.env.input| + |Stashed(s.pending)|
  }

  /** Lets the environment act, as the script says. */
  method Act(s: State, script: seq<seq<Move>>, tick: nat) returns (r: State, next: nat)
    requires Inv(s) && tick <= |script|
    ensures Inv(r) && EnvOnly(s, r) && tick <= next <= |script|
    ensures if tick < |script| then next == tick + 1 && r.env == MovedAll(s.env, script[tick]) else r == s
  {
    r, next := s, tick;
    if tick < |script| {
      MovesKeep(s, script[tick]);
      r := s.(env := MovedAll(s.env, script[tick]));
      next := tick + 1;
    }
  }

  /** Batches are untouched while a batch is formed. */
  predicate SameBatches(s: State, r: State) {
    r.current == s.current && r.inflight == s.inflight && (s.env.outClosed ==> r.env.outClosed)
  }

  datatype Pull = Got | Nothing | InputOver | Stuck

  /** What a job just dequeued is answered without a batch, if anything. */
  function Turned(s: State, job: Job, maxNodes: nat): (o: Option<Outcome>)
    ensures (o == Some(Cancelled) <==> IsCancelled(s.env.level, job.watermark))
    ensures o == Some(EmptyDone) <==> !IsCancelled(s.env.level, job.watermark) && job.nodes == 0
    ensures o == Some(Capacity) <==> !IsCancelled(s.env.level, job.watermark) && job.nodes > maxNodes && job.nodes > 0
    ensures o.Some? ==> o.value != Done && Fit(s, job, o.value) && TurnedAway(Answer(job, o.value), maxNodes)
    ensures o.None? ==> !IsCancelled(s.env.level, job.watermark) && 0 < job.nodes <= maxNodes
  {
    if IsCancelled(s.env.level, job.watermark) then Some(Cancelled)
    else if job.nodes == 0 then Some(EmptyDone)
    else if job.nodes > maxNodes then Some(Capacity)
    else None
  }

  /** The stashed job first, else the input's next. */
  function Dequeued(s: State): State
    requires s.pending.Some? || s.env.input != []
  {
    if s.pending.Some? then Unstash(s) else Receive(s)
  }

  lemma DequeuedKeeps(s: State)
    requires Inv(s) && s.hand == [] && (s.pending.Some? || s.env.input != [])
    ensures var r := Dequeued(s);
            && Inv(r) && SameBatches(s, r) && |r.hand| == 1 && r.pending.None?
            && Left(r) == Left(s) - 1 && r.answers == s.answers && r.lost == s.lost && r.harvested == s.harvested
  {
    hide Inv;
    if s.pending.Some? {
      UnstashKeeps(s);
    } else {
      ReceiveKeeps(s);
    }
  }

  lemma AnswerLastOnly(s: State, outcome: Outcome)
    requires |s.hand| == 1
    ensures var r := AnswerLast(s, outcome);
            && r.hand == [] && r.pending == s.pending && SameBatches(s, r) && Left(r) == Left(s)
            && r.answers == s.answers + [Answer(Last(s), outcome)] && r.lost == s.lost && r.harvested == s.harvested
  {
  }

  /** The next job that belongs in a batch; others are answered on the way. */
  method NextSeed(s0: State, blocking: bool, maxNodes: nat, script: seq<seq<Move>>, tick0: nat)
    returns (s: State, got: Pull, tick: nat)
    requires Inv(s0) && s0.hand == [] && tick0 <= |script|
    ensures Inv(s) && SameBatches(s0, s) && tick0 <= tick <= |script|
    ensures got == Got ==> |s.hand| == 1 && 0 < s.hand[0].nodes <= maxNodes && s.pending.None?
    ensures got == Got ==> tick > tick0 || Left(s) < Left(s0)
    ensures got == Got ==> !IsCancelled(s.env.level, s.hand[0].watermark) && (tick0 < |script| ==> tick > tick0)
    ensures Looked(s0, s)
    ensures got != Got ==> s.hand == []
    ensures got == InputOver ==> s.pending.None? && s.env.input == [] && s.env.inputClosed
    ensures blocking ==> got != Nothing
    ensures got == Stuck ==> tick == |script|
    ensures OnlyTurned(s0.answers, s.answers, maxNodes) && s.lost == s0.lost && s.harvested == s0.harvested
  {
    s, tick := s0, tick0;
    hide Inv, MovedAll, TurnedAway, Looked, OnlyTurned, Turned;
    LookedNone(s0);
    OnlyTurnedNone(s0.answers, maxNodes);
    while true
      invariant Looked(s0, s)
      invariant Inv(s) && SameBatches(s0, s) && s.hand == [] && tick0 <= tick <= |script|
      invariant OnlyTurned(s0.answers, s.answers, maxNodes) && s.lost == s0.lost && s.harvested == s0.harvested
      invariant tick > tick0 || Left(s) <= Left(s0)
      decreases |script| - tick, Left(s)
    {
      if s.pending.Some? || s.env.input != [] {
        s, tick := TakeOne(s0, s, script, tick);
        var turned := Turned(s, Last(s), maxNodes);
        if turned.None? {
          got := Got;
          return;
        }
        s := TurnAway(s0, s, turned.value, maxNodes);
      } else if !blocking {
        got := Nothing;
        return;
      } else if s.env.inputClosed {
        got := InputOver;
        return;
      } else if tick == |script| {
        got := Stuck;
        return;
      } else {
        ghost var idle := s;
        s, tick := Act(s, script, tick);
        LookedMoved(s0, idle, s);
      }
    }
  }

  /** The next job in hand, and time for the environment to act. */
  method TakeOne(ghost start: State, s0: State, script: seq<seq<Move>>, tick0: nat)
    returns (s: State, tick: nat)
    requires Inv(s0) && Looked(start, s0) && s0.hand == [] && (s0.pending.Some? || s0.env.input != []) && tick0 <= |script|
    ensures Inv(s) && SameBatches(s0, s) && Looked(start, s) && |s.hand| == 1 && s.pending.None?
    ensures tick == Min(tick0 + 1, |script|) && (tick > tick0 || Left(s) == Left(s0) - 1)
    ensures s.answers == s0.answers && s.lost == s0.lost && s.harvested == s0.harvested
  {
    hide Inv, MovedAll, Looked, Dequeued;
    DequeuedKeeps(s0);
    LookedMore(start, s0);
    s := Dequeued(s0);
    ghost var dequeued := s;
    s, tick := Act(s, script, tick0);
    LookedMoved(start, dequeued, s);
  }

  /** The job in hand answered without a batch. */
  method TurnAway(ghost start: State, s0: State, outcome: Outcome, ghost maxNodes: nat) returns (s: State)
    requires Inv(s0) && |s0.hand| == 1 && Fit(s0, s0.hand[0], outcome) && Looked(start, s0)
    requires OnlyTurned(start.answers, s0.answers, maxNodes) && TurnedAway(Answer(s0.hand[0], outcome), maxNodes)
    ensures Inv(s) && SameBatches(s0, s) && Looked(start, s) && s.hand == [] && s.pending == s0.pending && Left(s) == Left(s0)
    ensures s.answers == s0.answers + [Answer(s0.hand[0], outcome)] && s.lost == s0.lost && s.harvested == s0.harvested
    ensures OnlyTurned(start.answers, s.answers, maxNodes)
  {
    hide Inv, TurnedAway, Looked, OnlyTurned, AnswerLast, Fit;
    AnswerLastKeeps(s0, outcome);
    AnswerLastOnly(s0, outcome);
    OnlyTurnedMore(start.answers, s0.answers, Answer(Last(s0), outcome), maxNodes);
    LookedTurned(start, s0, outcome);
    s := AnswerLast(s0, outcome);
  }

  /** What was dequeued, the stashed job first and then the input's in order, is what
      was turned away and then the job in hand. */
  predicate Looked(s0: State, s: State) {
    && s0.received <= s.received && s0.answers <= s.answers
    && Stashed(s0.pending) + s.received[|s0.received|..] == Answered(s.answers[|s0.answers|..]) + s.hand + Stashed(s.pending)
  }

  lemma LookedNone(s: State)
    requires s.hand == []
    ensures Looked(s, s)
  {
  }

  lemma LookedMoved(s0: State, s: State, r: State)
    requires Looked(s0, s) && r == s.(env := r.env)
    ensures Looked(s0, r)
  {
  }

  lemma LookedMore(s0: State, s: State)
    requires Looked(s0, s) && s.hand == [] && (s.pending.Some? || s.env.input != [])
    ensures Looked(s0, Dequeued(s))
  {
    hide Answered;
    var r, seen, out := Dequeued(s), s.received[|s0.received|..], Answered(s.answers[|s0.answers|..]);
    if s.pending.Some? {
      assert out + [] + [s.pending.value] == out + [s.pending.value] + [];
    } else {
      assert r.received[|s0.received|..] == seen + [s.env.input[0]];
      assert Stashed(s0.pending) + (seen + [s.env.input[0]]) == (Stashed(s0.pending) + seen) + [s.env.input[0]];
    }
  }

  lemma LookedTurned(s0: State, s: State, outcome: Outcome)
    requires Looked(s0, s) && |s.hand| == 1
    ensures Looked(s0, AnswerLast(s, outcome))
  {
    var r := AnswerLast(s, outcome);
    assert r.answers[|s0.answers|..] == s.answers[|s0.answers|..] + [Answer(Last(s), outcome)];
    assert Answered(r.answers[|s0.answers|..]) == Answered(s.answers[|s0.answers|..]) + s.hand;
  }

  lemma SameKeyAppend(jobs: seq<Job>, job: Job)
    requires jobs != [] && SameKey(jobs) && KeyOf(job) == KeyOf(jobs[0])
    ensures SameKey(jobs + [job])
  {
    hide KeyOf;
  }

  /** What filling made of one job of the input. */
  datatype Mark = Added | Refused | KeptBack

  /** The jobs so marked, in order. */
  function Marked(jobs: seq<Job>, marks: seq<Mark>, m: Mark): seq<Job>
    requires |marks| == |jobs|
  {
    if jobs == [] then []
    else
      var last := |jobs| - 1;
      Marked(jobs[..last], marks[..last], m) + if marks[last] == m then [jobs[last]] else []
  }

  lemma MarkedMore(jobs: seq<Job>, marks: seq<Mark>, job: Job, mark: Mark, m: Mark)
    requires |marks| == |jobs|
    ensures Marked(jobs + [job], marks + [mark], m) == Marked(jobs, marks, m) + if mark == m then [job] else []
  {
    assert (jobs + [job])[..|jobs|] == jobs && (marks + [mark])[..|jobs|] == marks;
  }

  /** What was taken from the input, job by job: added to the batch, answered, or
      at the end kept back. */
  predicate Sorted(s0: State, s: State, taken: seq<Job>, marks: seq<Mark>) {
    && |marks| == |taken| && s.received == s0.received + taken
    && s.hand == s0.hand + Marked(taken, marks, Added)
    && s0.answers <= s.answers && Answered(s.answers[|s0.answers|..]) == Marked(taken, marks, Refused)
    && Stashed(s.pending) == Marked(taken, marks, KeptBack)
    && forall i :: 0 <= i < |marks| - 1 ==> marks[i] != KeptBack
  }

  /** What filling has done so far: jobs of the key added, others turned away. */
  predicate Filling(s0: State, s: State, key: BatchKey, cap: nat, maxNodes: nat, taken: seq<Job>, marks: seq<Mark>) {
    && SameBatches(s0, s) && s0.hand <= s.hand && |s.hand| <= Max(cap, |s0.hand|)
    && (forall i :: |s0.hand| <= i < |s.hand| ==> 0 < s.hand[i].nodes <= maxNodes)
    && OnlyTurned(s0.answers, s.answers, maxNodes) && s.lost == s0.lost && s.harvested == s0.harvested
    && s.hand != [] && SameKey(s.hand) && key == KeyOf(s.hand[0]) && Sorted(s0, s, taken, marks)
  }

  lemma FillingMoved(s0: State, s: State, now: State, key: BatchKey, cap: nat, maxNodes: nat, taken: seq<Job>, marks: seq<Mark>)
    requires Filling(s0, s, key, cap, maxNodes, taken, marks) && EnvOnly(s, now)
    ensures Filling(s0, now, key, cap, maxNodes, taken, marks)
  {
    hide SameKey, KeyOf, TurnedAway, Marked;
  }

  lemma SortedRefused(s0: State, s: State, outcome: Outcome, taken: seq<Job>, marks: seq<Mark>)
    requires Sorted(s0, s, taken, marks) && s.env.input != [] && s.pending.None?
    ensures Sorted(s0, AnswerLast(Receive(s), outcome), taken + [s.env.input[0]], marks + [Refused])
  {
    hide Marked;
    var job, now := s.env.input[0], AnswerLast(Receive(s), outcome);
    NoneKept(s, s0, taken, marks);
    MarkedMore(taken, marks, job, Refused, Added);
    MarkedMore(taken, marks, job, Refused, Refused);
    MarkedMore(taken, marks, job, Refused, KeptBack);
    assert now.hand == s.hand;
    var more := s.answers[|s0.answers|..];
    assert now.answers[|s0.answers|..] == more + [Answer(job, outcome)];
    assert Answered(more + [Answer(job, outcome)]) == Answered(more) + [job];
  }

  lemma SortedAdded(s0: State, s: State, taken: seq<Job>, marks: seq<Mark>)
    requires Sorted(s0, s, taken, marks) && s.env.input != [] && s.pending.None?
    ensures Sorted(s0, Receive(s), taken + [s.env.input[0]], marks + [Added])
  {
    hide Marked, Answered;
    var job := s.env.input[0];
    NoneKept(s, s0, taken, marks);
    MarkedMore(taken, marks, job, Added, Added);
    MarkedMore(taken, marks, job, Added, Refused);
    MarkedMore(taken, marks, job, Added, KeptBack);
  }

  lemma SortedKept(s0: State, s: State, taken: seq<Job>, marks: seq<Mark>)
    requires Sorted(s0, s, taken, marks) && s.env.input != [] && s.pending.None?
    ensures Sorted(s0, StashLast(Receive(s)), taken + [s.env.input[0]], marks + [KeptBack])
  {
    hide Marked, Answered;
    var job, now := s.env.input[0], StashLast(Receive(s));
    NoneKept(s, s0, taken, marks);
    MarkedMore(taken, marks, job, KeptBack, Added);
    MarkedMore(taken, marks, job, KeptBack, Refused);
    MarkedMore(taken, marks, job, KeptBack, KeptBack);
    assert now.hand == s.hand;
  }

  /** With nothing stashed no job was kept back. */
  lemma NoneKept(s: State, s0: State, taken: seq<Job>, marks: seq<Mark>)
    requires Sorted(s0, s, taken, marks) && s.pending.None?
    ensures forall i :: 0 <= i < |marks| ==> marks[i] != KeptBack
  {
    hide Answered;
    if marks != [] {
      assert Marked(taken, marks, KeptBack)
          == Marked(taken[..|taken| - 1], marks[..|taken| - 1], KeptBack)
             + if marks[|taken| - 1] == KeptBack then [taken[|taken| - 1]] else [];
    }
  }

  lemma FillingTurned(s0: State, s: State, key: BatchKey, cap: nat, maxNodes: nat, outcome: Outcome, taken: seq<Job>,
                      marks: seq<Mark>)
    requires Filling(s0, s, key, cap, maxNodes, taken, marks) && s.env.input != [] && s.pending.None?
    requires TurnedAway(Answer(s.env.input[0], outcome), maxNodes)
    ensures var now := AnswerLast(Receive(s), outcome);
            && Filling(s0, now, key, cap, maxNodes, taken + [s.env.input[0]], marks + [Refused])
            && now.pending == s.pending && now.env == Receive(s).env
  {
    hide SameKey, KeyOf, TurnedAway, Sorted;
    SortedRefused(s0, s, outcome, taken, marks);
    assert AnswerLast(Receive(s), outcome).hand == s.hand;
  }

  lemma FillingAdded(s0: State, s: State, key: BatchKey, cap: nat, maxNodes: nat, taken: seq<Job>, marks: seq<Mark>)
    requires Filling(s0, s, key, cap, maxNodes, taken, marks) && s.env.input != [] && |s.hand| < cap && s.pending.None?
    requires KeyOf(s.env.input[0]) == key && 0 < s.env.input[0].nodes <= maxNodes
    ensures Filling(s0, Receive(s), key, cap, maxNodes, taken + [s.env.input[0]], marks + [Added])
  {
    hide SameKey, KeyOf, TurnedAway, Sorted;
    SameKeyAppend(s.hand, s.env.input[0]);
    SortedAdded(s0, s, taken, marks);
  }

  lemma FillingStashed(s0: State, s: State, key: BatchKey, cap: nat, maxNodes: nat, taken: seq<Job>, marks: seq<Mark>)
    requires Filling(s0, s, key, cap, maxNodes, taken, marks) && s.env.input != [] && s.pending.None?
    ensures var now := StashLast(Receive(s));
            && Filling(s0, now, key, cap, maxNodes, taken + [s.env.input[0]], marks + [KeptBack])
            && now.pending == Some(s.env.input[0]) && Left(now) == Left(s)
  {
    hide SameKey, KeyOf, TurnedAway, Sorted;
    SortedKept(s0, s, taken, marks);
    assert StashLast(Receive(s)).hand == s.hand;
  }

  lemma FillingMeans(s0: State, s: State, key: BatchKey, cap: nat, maxNodes: nat, taken: seq<Job>, marks: seq<Mark>)
    requires Filling(s0, s, key, cap, maxNodes, taken, marks)
    ensures SameBatches(s0, s) && s.hand != [] && SameKey(s.hand) && key == KeyOf(s.hand[0])
    ensures s0.hand <= s.hand && |s.hand| <= Max(cap, |s0.hand|)
    ensures forall i :: |s0.hand| <= i < |s.hand| ==> 0 < s.hand[i].nodes <= maxNodes
    ensures OnlyTurned(s0.answers, s.answers, maxNodes) && s.lost == s0.lost && s.harvested == s0.harvested
    ensures Sorted(s0, s, taken, marks)
  {
    hide SameKey, KeyOf, TurnedAway, Sorted;
  }

  /** Adds jobs of the same key, up to `cap`, until a different one or a pause:
      time is up, or the input is empty and over. `taken` are the jobs it took
      from the input, and `marks` what it made of each. */
  method FillBatch(s0: State, key: BatchKey, cap: nat, maxNodes: nat, script: seq<seq<Move>>, tick0: nat)
    returns (s: State, tick: nat, ghost taken: seq<Job>, ghost marks: seq<Mark>)
    requires Inv(s0) && s0.hand != [] && SameKey(s0.hand) && key == KeyOf(s0.hand[0]) && s0.pending.None?
    requires tick0 <= |script|
    ensures Inv(s) && SameBatches(s0, s) && tick0 <= tick <= |script|
    ensures s.hand != [] && SameKey(s.hand) && (tick > tick0 || Left(s) <= Left(s0))
    ensures s0.hand <= s.hand && |s.hand| <= Max(cap, |s0.hand|)
    ensures forall i :: |s0.hand| <= i < |s.hand| ==> 0 < s.hand[i].nodes <= maxNodes
    ensures s.pending.Some? ==> KeyOf(s.pending.value) != key && 0 < s.pending.value.nodes <= maxNodes
    ensures OnlyTurned(s0.answers, s.answers, maxNodes) && s.lost == s0.lost && s.harvested == s0.harvested
    ensures Sorted(s0, s, taken, marks)
    ensures |s.hand| >= cap || s.env.say.timeUp || s.pending.Some?
            || (s.env.input == [] && (s.env.inputClosed || tick == |script|))
  {
    hide Inv, MovedAll, SameKey, KeyOf, TurnedAway, Filling, OnlyTurned, Sorted;
    s, tick, taken, marks := s0, tick0, [], [];
    FillingNone(s0, key, cap, maxNodes);
    while |s.hand| < cap && !s.env.say.timeUp
      invariant Inv(s) && Filling(s0, s, key, cap, maxNodes, taken, marks) && s.pending.None?
      invariant tick0 <= tick <= |script| && (tick > tick0 || Left(s) <= Left(s0))
      decreases |script| - tick, |s.env.input|
    {
      ghost var before := s;
      s, tick := Act(s, script, tick);
      FillingMoved(s0, before, s, key, cap, maxNodes, taken, marks);
      if s.env.input == [] {
        if s.env.inputClosed || s.env.say.timeUp || tick == |script| {
          break;
        }
        continue;
      }
      var going;
      ghost var mark;
      taken := taken + [s.env.input[0]];
      s, going, mark := FillOne(s0, s, key, cap, maxNodes, taken[..|taken| - 1], marks);
      marks := marks + [mark];
      if !going {
        break;
      }
    }
    FillingMeans(s0, s, key, cap, maxNodes, taken, marks);
  }

  lemma FillingNone(s: State, key: BatchKey, cap: nat, maxNodes: nat)
    requires s.hand != [] && SameKey(s.hand) && key == KeyOf(s.hand[0]) && s.pending.None?
    ensures Filling(s, s, key, cap, maxNodes, [], [])
  {
    hide SameKey, KeyOf, TurnedAway;
  }

  /** The next job of the input: turned away, added, or kept for later. */
  method FillOne(ghost s0: State, s: State, key: BatchKey, ghost cap: nat, maxNodes: nat, ghost taken: seq<Job>,
                 ghost marks: seq<Mark>)
    returns (r: State, going: bool, ghost mark: Mark)
    requires Inv(s) && Filling(s0, s, key, cap, maxNodes, taken, marks) && s.pending.None? && s.env.input != []
    requires |s.hand| < cap
    ensures Inv(r) && Filling(s0, r, key, cap, maxNodes, taken + [s.env.input[0]], marks + [mark]) && Left(r) <= Left(s)
    ensures r.env == s.env.(input := s.env.input[1..])
    ensures if going then r.pending.None?
            else
              && r.pending == Some(s.env.input[0]) && KeyOf(s.env.input[0]) != key
              && 0 < s.env.input[0].nodes <= maxNodes
    ensures mark == Refused <==> Turned(s, s.env.input[0], maxNodes).Some?
    ensures mark == Added <==> Turned(s, s.env.input[0], maxNodes).None? && KeyOf(s.env.input[0]) == key
  {
    hide Inv, SameKey, KeyOf, TurnedAway, Filling;
    var job := s.env.input[0];
    ReceiveKeeps(s);
    r, going, mark := Receive(s), true, Added;
    FillingHand(s0, s, key, cap, maxNodes, taken, marks);
    var turned := Turned(r, job, maxNodes);
    MatchesIsSameKey(s.hand[0], job);
    if turned.Some? {
      AnswerLastKeeps(r, turned.value);
      FillingTurned(s0, s, key, cap, maxNodes, turned.value, taken, marks);
      r, mark := AnswerLast(r, turned.value), Refused;
    } else if key.Matches(job) {
      FillingAdded(s0, s, key, cap, maxNodes, taken, marks);
    } else {
      StashLastKeeps(r);
      FillingStashed(s0, s, key, cap, maxNodes, taken, marks);
      r, going, mark := StashLast(r), false, KeptBack;
    }
  }

  lemma FillingHand(s0: State, s: State, key: BatchKey, cap: nat, maxNodes: nat, taken: seq<Job>, marks: seq<Mark>)
    requires Filling(s0, s, key, cap, maxNodes, taken, marks)
    ensures s.hand != [] && key == KeyOf(s.hand[0])
  {
    hide SameKey, KeyOf, TurnedAway, Sorted;
  }

  predicate LastDone(b: Batch) {
    b.cmds == [] || b.cmds[|b.cmds| - 1] == Completed
  }

  /** Why a batch takes no further chunk. */
  predicate Settled(b: Batch, level: nat) {
    AnyCancelled(level, b.jobs) || !LastDone(b) || |b.cmds| == |b.plan|
  }

  /** Submits the next chunk of the plan, checking cancellation before encoding
      it and again right before it goes. */
  method CommitNext(s: State, b: Batch, script: seq<seq<Move>>, tick: nat)
    returns (r: State, c: Batch, ok: bool, next: nat)
    requires Inv(s) && BatchOk(b) && tick <= |script|
    ensures Inv(r) && EnvOnly(s, r) && tick <= next <= |script| && BatchOk(c) && (next > tick || r == s)
    ensures ok ==> LastDone(b) && |b.cmds| < |b.plan| && c == b.(cmds := b.cmds + [Unfinished])
    ensures ok ==> !AnyCancelled(r.env.level, b.jobs) && next == Min(tick + 1, |script|)
    ensures !ok ==> c == b && Settled(b, r.env.level)
  {
    r, c, ok, next := s, b, false, tick;
    if AnyCancelled(s.env.level, b.jobs) || !LastDone(b) {
      return;
    }
    if |b.cmds| >= |b.plan| {
      return;
    }
    hide Inv;
    r, next := Act(s, script, tick);
    if AnyCancelled(r.env.level, b.jobs) {
      return;
    }
    c, ok := b.(cmds := b.cmds + [Unfinished]), true;
  }

  /** Waits for the last chunk; how it ended is the device's to say. */
  function Awaited(b: Batch, deviceOk: bool): Batch {
    if b.cmds == [] || b.cmds[|b.cmds| - 1] != Unfinished then b
    else b.(cmds := b.cmds[|b.cmds| - 1 := if deviceOk then Completed else Faulted])
  }

  lemma AwaitedOk(b: Batch, deviceOk: bool)
    requires BatchOk(b)
    ensures BatchOk(Awaited(b, deviceOk))
    ensures LastDone(Awaited(b, deviceOk)) || Awaited(b, deviceOk).cmds[|b.cmds| - 1] == Faulted
  {
  }

  /** The waiting batch, or the newest one in flight, replaced by itself one
      step on. */
  lemma CurrentKeeps(s: State, b: Batch)
    requires Inv(s) && s.current.Some? && BatchOk(b) && b.jobs == s.current.value.jobs
    ensures Inv(s.(current := Some(b)))
  {
    forall j: Job
      ensures ConservedAt(s.(current := Some(b)), j)
    {
      assert ConservedAt(s, j);
    }
    hide ConservedAt, HonestAt, BatchOk, Whole;
  }

  lemma NewestKeeps(s: State, b: Batch)
    requires Inv(s) && s.inflight != [] && BatchOk(b) && b.jobs == s.inflight[|s.inflight| - 1].jobs
    ensures Inv(s.(inflight := s.inflight[|s.inflight| - 1 := b]))
  {
    var last := |s.inflight| - 1;
    var now := s.(inflight := s.inflight[last := b]);
    assert now.inflight[..last] == s.inflight[..last];
    forall j: Job
      ensures ConservedAt(now, j)
    {
      assert ConservedAt(s, j);
    }
    hide ConservedAt, HonestAt, BatchOk, Whole;
  }

  /** Answers everything in hand, in order. */
  method AnswerAll(s0: State, outcome: Outcome) returns (s: State)
    requires Inv(s0) && forall i :: 0 <= i < |s0.hand| ==> Fit(s0, s0.hand[i], outcome)
    ensures Inv(s) && s.hand == [] && s.env == s0.env && s.pending == s0.pending
    ensures s.current == s0.current && s.inflight == s0.inflight && s.harvested == s0.harvested
    ensures s.lost == s0.lost && s.answers == s0.answers + Tagged(s0.hand, outcome)
  {
    s := s0;
    hide Inv, HonestAt, Tagged;
    ghost var n := 0;
    assert s0.hand[..0] == [] && s0.hand[0..] == s0.hand;
    while s.hand != []
      invariant n <= |s0.hand| && s.hand == s0.hand[n..] && s.answers == s0.answers + Tagged(s0.hand[..n], outcome)
      invariant Inv(s) && s.env == s0.env && s.pending == s0.pending && s.harvested == s0.harvested
      invariant s.current == s0.current && s.inflight == s0.inflight && s.lost == s0.lost
      invariant forall i :: 0 <= i < |s.hand| ==> Fit(s, s.hand[i], outcome)
      decreases |s.hand|
    {
      AnswerFirstKeeps(s, outcome);
      TaggedHead(s0.hand, n, outcome);
      s := AnswerFirst(s, outcome);
      n := n + 1;
    }
    assert s0.hand[..n] == s0.hand;
  }

  /** Delivers the reads in hand, in order, until the output closes. */
  method DeliverAll(s0: State, script: seq<seq<Move>>, tick0: nat) returns (s: State, tick: nat, ghost n: nat)
    requires Inv(s0) && forall i :: 0 <= i < |s0.hand| ==> Fit(s0, s0.hand[i], Done)
    requires tick0 <= |script|
    ensures Inv(s) && s.hand == [] && SameBatches(s0, s) && s.pending == s0.pending && tick0 <= tick <= |script|
    ensures s.harvested == s0.harvested && Delivered(s0, s, s0.hand, n)
    ensures s0.hand != [] && tick0 < |script| ==> tick > tick0
  {
    s, tick, n := s0, tick0, 0;
    hide Inv, Tagged, HonestAt;
    assert s0.hand[..0] == [] && s0.hand[0..] == s0.hand && s0.answers + Tagged([], Done) == s0.answers;
    while s.hand != []
      invariant Inv(s) && SameBatches(s0, s) && s.pending == s0.pending && tick0 <= tick <= |script|
      invariant s.harvested == s0.harvested && s.lost == s0.lost
      invariant n == 0 || tick0 == |script| || tick > tick0
      invariant n <= |s0.hand| && s.hand == s0.hand[n..] && s.answers == s0.answers + Tagged(s0.hand[..n], Done)
      invariant forall i :: 0 <= i < |s.hand| ==> Fit(s, s.hand[i], Done)
      decreases |s.hand|
    {
      s, tick := Act(s, script, tick);
      AnswerFirstKeeps(s, Done);
      TaggedHead(s0.hand, n, Done);
      s := AnswerFirst(s, Done);
      n := n + 1;
      if s.env.outClosed {
        LoseKeeps(s);
        s := Lose(s);
        return;
      }
    }
    assert s0.hand[n..] == [] && s0.lost + [] == s0.lost;
  }

  /** The first `n` jobs got their reads; the rest only if the output closed. */
  predicate Delivered(s: State, r: State, jobs: seq<Job>, n: nat) {
    && n <= |jobs| && r.answers == s.answers + Tagged(jobs[..n], Done) && r.lost == s.lost + jobs[n..]
    && (n < |jobs| ==> r.env.outClosed)
  }

  /** Jobs of a batch share a watermark, so one cancelled means all. */
  lemma AllCancelled(jobs: seq<Job>, level: nat)
    requires SameKey(jobs) && AnyCancelled(level, jobs)
    ensures forall i :: 0 <= i < |jobs| ==> IsCancelled(level, jobs[i].watermark)
  {
    var k :| 0 <= k < |jobs| && IsCancelled(level, jobs[k].watermark);
    forall i | 0 <= i < |jobs|
      ensures IsCancelled(level, jobs[i].watermark)
    {
      assert KeyOf(jobs[i]) == KeyOf(jobs[k]);
    }
  }

  /** How the jobs of a batch without reads are answered. */
  function Ending(b: Batch, v: Env): Outcome {
    if !LastDone(b) then DeviceFault
    else if AnyCancelled(v.level, b.jobs) then Cancelled
    else if v.say.harvest.Some? then Rejection(v.say.harvest.value)
    else Done
  }

  /** A batch that ended between the two states: answered as a whole for the
      reason there was, or harvested whole and its reads delivered. */
  ghost predicate Ended(b: Batch, s0: State, s: State) {
    if s.harvested == s0.harvested then
      && (!LastDone(b) || AnyCancelled(s.env.level, b.jobs) || s.env.say.harvest.Some?)
      && s.lost == s0.lost && s.answers == s0.answers + Tagged(b.jobs, Ending(b, s.env))
    else s.harvested == s0.harvested + [b] && Whole(b) && exists n :: Delivered(s0, s, b.jobs, n)
  }

  /** Ends a batch that takes no further chunk: failed chunks fault every job,
      a cancelled watermark cancels every job, and only otherwise, which means
      after the whole plan, are reads harvested. */
  method FinishBatch(s0: State, script: seq<seq<Move>>, tick0: nat) returns (s: State, tick: nat)
    requires Inv(s0) && s0.current.Some? && s0.hand == [] && tick0 <= |script|
    requires Settled(s0.current.value, s0.env.level)
    requires LastDone(s0.current.value) || Faulted == s0.current.value.cmds[|s0.current.value.cmds| - 1]
    ensures Inv(s) && s.current.None? && s.inflight == s0.inflight && s.hand == [] && s.pending == s0.pending
    ensures (s0.env.outClosed ==> s.env.outClosed) && tick0 <= tick <= |script|
    ensures Ended(s0.current.value, s0, s)
  {
    hide Inv, MovedAll, Consecutive, Reach;
    s, tick := Act(s0, script, tick0);
    CurrentOk(s);
    var b := s.current.value;
    if !LastDone(b) {
      UnpackKeeps(s, false);
      s := Unpack(s, false);
      s := AnswerAll(s, DeviceFault);
    } else if AnyCancelled(s.env.level, b.jobs) {
      AllCancelled(b.jobs, s.env.level);
      UnpackKeeps(s, false);
      s := Unpack(s, false);
      s := AnswerAll(s, Cancelled);
    } else if s.env.say.harvest.Some? {
      UnpackKeeps(s, false);
      s := Unpack(s, false);
      s := AnswerAll(s, Rejection(s.env.say.harvest.value));
    } else {
      UnpackKeeps(s, true);
      s := Unpack(s, true);
      assert s.harvested[|s.harvested| - 1] == b;
      ghost var n;
      s, tick, n := DeliverAll(s, script, tick);
      assert Delivered(s0, s, b.jobs, n);
    }
  }

  lemma CurrentOk(s: State)
    requires Inv(s) && s.current.Some?
    ensures BatchOk(s.current.value)
  {
  }

  datatype Formed = Launched | NoBatch | NoInput | Closed | Waiting

  /** The cancelled jobs, or the others, in order. */
  function Partition(jobs: seq<Job>, level: nat, stale: bool): seq<Job> {
    if jobs == [] then []
    else
      var last := jobs[|jobs| - 1];
      Partition(jobs[..|jobs| - 1], level, stale) + (if IsCancelled(level, last.watermark) == stale then [last] else [])
  }

  lemma PartitionNone(jobs: seq<Job>, level: nat)
    ensures Partition(jobs[..0], level, false) == [] && Tagged(Partition(jobs[..0], level, true), Cancelled) == []
  {
  }

  lemma PartitionStep(jobs: seq<Job>, level: nat, n: nat)
    requires n < |jobs|
    ensures var (stale, live) := (Partition(jobs[..n], level, true), Partition(jobs[..n], level, false));
            var (stale', live') := (Partition(jobs[..n + 1], level, true), Partition(jobs[..n + 1], level, false));
            if IsCancelled(level, jobs[n].watermark) then
              live' == live && Tagged(stale', Cancelled) == Tagged(stale, Cancelled) + [Answer(jobs[n], Cancelled)]
            else live' == live + [jobs[n]] && stale' == stale
  {
    assert jobs[..n + 1][..n] == jobs[..n];
  }

  /** Answers the cancelled jobs in hand and keeps the others, in order. */
  method Purge(s0: State) returns (s: State)
    requires Inv(s0) && SameKey(s0.hand)
    ensures s.hand == Partition(s0.hand, s0.env.level, false) && s.lost == s0.lost && s.harvested == s0.harvested
    ensures s.answers == s0.answers + Tagged(Partition(s0.hand, s0.env.level, true), Cancelled)
    ensures Inv(s) && SameKey(s.hand) && s.env == s0.env && s.pending == s0.pending && SameBatches(s0, s)
    ensures forall i :: 0 <= i < |s.hand| ==> !IsCancelled(s.env.level, s.hand[i].watermark)
  {
    s := s0;
    hide Inv, Partition, Tagged;
    ghost var live: seq<Job> := [];
    PartitionNone(s0.hand, s0.env.level);
    for n := 0 to |s0.hand|
      invariant Inv(s) && s.env == s0.env && s.pending == s0.pending && SameBatches(s0, s)
      invariant s.lost == s0.lost && s.harvested == s0.harvested
      invariant live == Partition(s0.hand[..n], s0.env.level, false)
      invariant s.answers == s0.answers + Tagged(Partition(s0.hand[..n], s0.env.level, true), Cancelled)
      invariant s.hand == s0.hand[n..] + live
      invariant forall j :: j in live ==> j in s0.hand && !IsCancelled(s.env.level, j.watermark)
    {
      var job := s.hand[0];
      assert job == s0.hand[n];
      PartitionStep(s0.hand, s0.env.level, n);
      if IsCancelled(s.env.level, job.watermark) {
        AnswerFirstKeeps(s, Cancelled);
        s := AnswerFirst(s, Cancelled);
      } else {
        RotateKeeps(s);
        s := s.(hand := s.hand[1..] + [job]);
        live := live + [job];
      }
    }
    assert s0.hand[..|s0.hand|] == s0.hand;
    SameKeySubset(s0.hand, s.hand);
  }

  lemma SameKeySubset(jobs: seq<Job>, some: seq<Job>)
    requires SameKey(jobs) && forall j :: j in some ==> j in jobs
    ensures SameKey(some)
  {
    forall i, k | 0 <= i < |some| && 0 <= k < |some|
      ensures KeyOf(some[i]) == KeyOf(some[k])
    {
      assert some[i] in jobs && some[k] in jobs;
    }
  }

  /** Prepares the jobs in hand and submits the first chunk, or answers them. */
  method Prepare(s0: State, script: seq<seq<Move>>, tick0: nat) returns (s: State, formed: Formed, tick: nat)
    requires Inv(s0) && SameKey(s0.hand) && |s0.inflight| + (if s0.current.Some? then 1 else 0) < 2
    requires tick0 <= |script|
    ensures Inv(s) && s.hand == [] && s.pending == s0.pending && s.current == s0.current
    ensures tick0 <= tick <= |script| && (s0.env.outClosed ==> s.env.outClosed)
    ensures formed == Launched ==>
              && |s.inflight| == |s0.inflight| + 1 && s0.inflight == s.inflight[..|s0.inflight|]
              && s.inflight[|s0.inflight|].jobs == s0.hand && |s.inflight[|s0.inflight|].cmds| <= 1
              && s.answers == s0.answers && s.lost == s0.lost
    ensures formed == NoBatch ==>
              && s.env.say.encode.Some? && s.lost == s0.lost
              && s.answers == s0.answers + Tagged(s0.hand, Rejection(s.env.say.encode.value))
    ensures s.harvested == s0.harvested
    ensures formed == Closed ==> s.answers == s0.answers && s.lost == s0.lost + s0.hand
    ensures formed != Launched ==> s.inflight == s0.inflight
    ensures formed == Launched || formed == Closed || formed == NoBatch
    ensures formed == Closed ==> s.env.outClosed
    ensures tick > tick0 || Left(s) == Left(s0)
    ensures s0.env.outClosed || tick0 == |script| || tick > tick0
  {
    hide Inv, MovedAll, SameKey;
    s, tick := s0, tick0;
    if s.env.outClosed {
      LoseKeeps(s);
      s, formed := Lose(s), Closed;
      return;
    }
    s, tick := Act(s, script, tick);
    if s.env.say.encode.Some? {
      s := AnswerAll(s, Rejection(s.env.say.encode.value));
      formed := NoBatch;
      return;
    }
    if s.env.outClosed {
      LoseKeeps(s);
      s, formed := Lose(s), Closed;
      return;
    }
    s, tick := LaunchHand(s, script, tick);
    formed := Launched;
  }

  /** The jobs in hand as the newest batch, its first chunk committed if nobody
      has cancelled them. */
  method LaunchHand(s0: State, script: seq<seq<Move>>, tick0: nat) returns (s: State, tick: nat)
    requires Inv(s0) && SameKey(s0.hand) && |s0.inflight| + (if s0.current.Some? then 1 else 0) < 2
    requires tick0 <= |script| && !s0.env.outClosed
    ensures Inv(s) && s.hand == [] && s.pending == s0.pending && s.current == s0.current && tick0 <= tick <= |script|
    ensures |s.inflight| == |s0.inflight| + 1 && s0.inflight == s.inflight[..|s0.inflight|]
    ensures var b, say := s.inflight[|s0.inflight|], s0.env.say;
            && b.jobs == s0.hand && b.plan != []
            && Covers(b.plan, if say.betas == 0 then 1 else say.betas, if say.limit == 0 then 1 else say.limit)
            && Filled(b.plan, if say.limit == 0 then 1 else say.limit)
            && if AnyCancelled(s.env.level, b.jobs) then b.cmds == [] || b.cmds == [Unfinished] else b.cmds == [Unfinished]
    ensures s.answers == s0.answers && s.lost == s0.lost && s.harvested == s0.harvested
    ensures tick > tick0 || Left(s) == Left(s0)
  {
    hide Inv, MovedAll, SameKey, Filled;
    var plan := ChunkPlan(s0.env.say.betas, Max(s0.env.say.limit, 1));
    LongestChunk(plan, Max(s0.env.say.betas, 1), Max(s0.env.say.limit, 1));
    LaunchKeeps(s0, plan);
    s := Launch(s0, plan);
    var newest := |s.inflight| - 1;
    NewestOk(s);
    var r, b, ok, next := CommitNext(s, s.inflight[newest], script, tick0);
    NewestKeeps(r, b);
    s, tick := r.(inflight := r.inflight[newest := b]), next;
  }

  lemma NewestOk(s: State)
    requires Inv(s) && s.inflight != []
    ensures BatchOk(s.inflight[|s.inflight| - 1])
  {
  }

  /** Chunks of a plan are no longer than the schedule. */
  lemma LongestChunk(plan: seq<Chunk>, numBetas: nat, limit: nat)
    requires Covers(plan, numBetas, limit)
    ensures Consecutive(plan, numBetas) && Reach(plan) == numBetas
  {
    forall k | 0 <= k < |plan|
      ensures plan[k].1 <= numBetas
    {
      if k < |plan| - 1 {
        Later(plan, limit, k, |plan| - 1);
      }
    }
  }

  /** Waits out a throttle, unless the output closes. */
  method Throttled(s0: State, script: seq<seq<Move>>, tick0: nat) returns (s: State, tick: nat)
    requires Inv(s0) && tick0 <= |script|
    ensures Inv(s) && EnvOnly(s0, s) && tick0 <= tick <= |script| && (tick > tick0 || s == s0)
    ensures tick < |script| ==> !s.env.say.throttle || s.env.outClosed
  {
    hide Inv, MovedAll;
    s, tick := s0, tick0;
    while s.env.say.throttle && !s.env.outClosed && tick < |script|
      invariant Inv(s) && EnvOnly(s0, s) && tick0 <= tick <= |script| && (tick > tick0 || s == s0)
    {
      s, tick := Act(s, script, tick);
    }
  }

  /** A batch around the one job in hand: filled, rid of cancelled jobs and
      prepared. */
  method Gather(s0: State, maxNodes: nat, script: seq<seq<Move>>, tick0: nat)
    returns (s: State, formed: Formed, tick: nat, ghost filled: State, ghost taken: seq<Job>, ghost marks: seq<Mark>, ghost kept: State)
    requires Inv(s0) && |s0.hand| == 1 && s0.pending.None? && tick0 <= |script|
    requires |s0.inflight| + (if s0.current.Some? then 1 else 0) < 2
    ensures Inv(s) && s.hand == [] && s.current == s0.current && tick0 <= tick <= |script|
    ensures s0.env.outClosed ==> s.env.outClosed
    ensures formed == Launched ==>
              && |s.inflight| == |s0.inflight| + 1 && s0.inflight == s.inflight[..|s0.inflight|]
              && s.inflight[|s0.inflight|].jobs != [] && |s.inflight[|s0.inflight|].cmds| <= 1
    ensures formed != Launched ==> s.inflight == s0.inflight
    ensures formed == Launched || formed == NoBatch || formed == Closed
    ensures s.harvested == s0.harvested && (formed != Closed ==> s.lost == s0.lost)
    ensures formed == Closed ==> s.env.outClosed
    ensures tick > tick0 || Left(s) <= Left(s0)
    ensures FilledUp(s0, filled, taken, marks, true) && (tick < |script| ==> FilledUp(s0, filled, taken, marks, false))
    ensures kept.hand == Partition(filled.hand, kept.env.level, false) && !AnyCancelled(kept.env.level, kept.hand)
    ensures tick0 < |script| ==> tick > tick0
    ensures (kept.hand == [] ==> formed == NoBatch) && (formed == Launched ==> s.inflight[|s0.inflight|].jobs == kept.hand)
  {
    hide Inv, MovedAll, SameKey, KeyOf, OnlyTurned, Tagged, Partition, AnyCancelled, Sorted, FilledUp;
    OneKey(s0.hand);
    var cap := ScaleBudget(s0.env.say.nominal, s0.env.say.scale);
    s, tick, taken, marks := FillBatch(s0, KeyOf(s0.hand[0]), cap, maxNodes, script, tick0);
    filled := s;
    FilledUpMade(s0, s, taken, marks, tick == |script|);
    s, tick := Act(s, script, tick);
    NoneCancelled(s.hand, s.env.level);
    if AnyCancelled(s.env.level, s.hand) {
      s := Purge(s);
      NoneIn(s.hand, s.env.level);
      if s.hand == [] {
        formed, kept := NoBatch, s;
        return;
      }
    }
    kept := s;
    s, formed, tick := Prepare(s, script, tick);
  }

  /** The hand filled around one job up to its share of the device, time or input
      permitting. */
  ghost predicate FilledUp(s0: State, s: State, taken: seq<Job>, marks: seq<Mark>, cut: bool) {
    var cap := ScaleBudget(s0.env.say.nominal, s0.env.say.scale);
    && Sorted(s0, s, taken, marks) && |s.hand| <= cap
    && (|s.hand| == cap || s.env.say.timeUp || s.pending.Some? || (s.env.input == [] && (s.env.inputClosed || cut)))
  }

  lemma FilledUpMade(s0: State, s: State, taken: seq<Job>, marks: seq<Mark>, cut: bool)
    requires var cap := ScaleBudget(s0.env.say.nominal, s0.env.say.scale);
             && Sorted(s0, s, taken, marks) && |s.hand| <= Max(cap, |s0.hand|) && |s0.hand| == 1
             && (|s.hand| >= cap || s.env.say.timeUp || s.pending.Some? || (s.env.input == [] && (s.env.inputClosed || cut)))
    ensures FilledUp(s0, s, taken, marks, true) && (!cut ==> FilledUp(s0, s, taken, marks, false))
  {
    hide Sorted;
  }

  lemma {:induction false} NoneCancelled(jobs: seq<Job>, level: nat)
    ensures !AnyCancelled(level, jobs) ==> Partition(jobs, level, false) == jobs
  {
    if jobs != [] {
      NoneCancelled(jobs[..|jobs| - 1], level);
    }
  }

  lemma NoneIn(jobs: seq<Job>, level: nat)
    requires forall i :: 0 <= i < |jobs| ==> !IsCancelled(level, jobs[i].watermark)
    ensures !AnyCancelled(level, jobs)
  {
  }

  /** Collects, checks and launches the next batch. Waiting for a job is allowed
      only when `blocking`, which is only when nothing is in flight. */
  method FormAndCommit(s0: State, blocking: bool, maxNodes: nat, script: seq<seq<Move>>, tick0: nat)
    returns (s: State, formed: Formed, tick: nat, ghost gated: State, ghost gate: nat)
    requires Inv(s0) && s0.hand == [] && tick0 <= |script|
    requires |s0.inflight| + (if s0.current.Some? then 1 else 0) < 2
    requires blocking ==> s0.inflight == [] && s0.current.None?
    ensures Inv(s) && s.hand == [] && s.current == s0.current && tick0 <= tick <= |script|
    ensures s0.env.outClosed ==> s.env.outClosed
    ensures formed == Launched ==>
              && |s.inflight| == |s0.inflight| + 1 && s0.inflight == s.inflight[..|s0.inflight|]
              && s.inflight[|s0.inflight|].jobs != [] && |s.inflight[|s0.inflight|].cmds| <= 1
    ensures formed != Launched ==> s.inflight == s0.inflight
    ensures s.harvested == s0.harvested && (formed != Closed ==> s.lost == s0.lost)
    ensures formed == NoInput ==> s.pending.None? && s.env.input == [] && s.env.inputClosed
    ensures formed == Closed ==> s.env.outClosed
    ensures blocking ==> formed != NoBatch
    ensures formed == Waiting ==> tick == |script|
    ensures SameBatches(s0, gated) && tick0 <= gate <= tick
    ensures formed != Closed && gate < |script| ==> !gated.env.say.throttle
  {
    hide Inv, MovedAll, SameKey, OnlyTurned, FilledUp, Partition, AnyCancelled;
    s, tick, gated, gate := s0, tick0, s0, tick0;
    while true
      invariant Inv(s) && s.hand == [] && SameBatches(s0, s) && tick0 <= tick <= |script|
      invariant s.harvested == s0.harvested && s.lost == s0.lost && SameBatches(s0, gated) && tick0 <= gate <= tick
      decreases |script| - tick, Left(s)
    {
      ghost var begun, left := tick, Left(s);
      if s.env.outClosed {
        formed := Closed;
        return;
      }
      s, tick := Throttled(s, script, tick);
      gated, gate := s, tick;
      if s.env.outClosed {
        formed := Closed;
        return;
      }
      var got;
      s, got, tick := NextSeed(s, blocking, maxNodes, script, tick);
      if got != Got {
        formed := match got case Nothing => NoBatch case InputOver => NoInput case _ => Waiting;
        return;
      }
      ghost var filled, taken, marks, kept;
      s, formed, tick, filled, taken, marks, kept := Gather(s, maxNodes, script, tick);
      if formed != NoBatch || !blocking {
        return;
      }
    }
  }

  lemma OneKey(jobs: seq<Job>)
    requires |jobs| == 1
    ensures SameKey(jobs)
  {
  }

  /** Everything in batches goes when the output closes. */
  function DropAll(s: State): State
    requires s.current.Some?
  {
    s.(current := None, inflight := [], lost := s.lost + s.current.value.jobs + Flat(s.inflight))
  }

  lemma DropAllKeeps(s: State)
    requires Inv(s) && s.current.Some? && s.env.outClosed
    ensures Inv(DropAll(s))
  {
    hide Stashed, Answered, BatchOk, HonestAt, Whole;
    forall j: Job
      ensures ConservedAt(DropAll(s), j)
    {
      assert ConservedAt(s, j);
      CountConcat(s.lost, s.current.value.jobs, j);
      CountConcat(s.lost + s.current.value.jobs, Flat(s.inflight), j);
    }
  }

  function Initial(say: Oracle): State {
    State(Env([], false, false, 0, say), None, [], None, [], [], [], [], [])
  }

  /** The stream starts with its channels open and nothing taken, held or answered. */
  lemma StartsEmpty(say: Oracle)
    ensures var s := Initial(say);
            && s.env.input == [] && !s.env.inputClosed && !s.env.outClosed && s.env.level == 0 && s.env.say == say
            && s.pending.None? && s.hand == [] && s.current.None? && s.inflight == []
            && s.received == [] && s.answers == [] && s.lost == [] && s.harvested == []
  {
  }

  lemma InitialInv(say: Oracle)
    ensures Inv(Initial(say))
  {
    forall j: Job
      ensures ConservedAt(Initial(say), j)
    {
      assert Answered([]) == [];
    }
  }

  /** With nothing outstanding and the output open, the answers are the received
      jobs, each exactly once. */
  lemma AllAnswered(s: State)
    requires Inv(s) && s.pending.None? && s.hand == [] && s.current.None? && s.inflight == [] && !s.env.outClosed
    ensures multiset(Answered(s.answers)) == multiset(s.received)
  {
    forall j: Job
      ensures Count(Answered(s.answers), j) == Count(s.received, j)
    {
      assert ConservedAt(s, j);
    }
    SameCounts(Answered(s.answers), s.received);
  }

  /** The chunks sent so far completed, and the next one is on its way. */
  predicate NextChunk(b: Batch, c: Batch) {
    && c.jobs == b.jobs && c.plan == b.plan && |c.cmds| == |b.cmds| + 1 <= |b.plan|
    && c.cmds[|b.cmds|] == Unfinished && forall k :: 0 <= k < |b.cmds| ==> c.cmds[k] == Completed
  }

  lemma NextChunkOf(b: Batch, deviceOk: bool, c: Batch)
    requires BatchOk(b) && LastDone(Awaited(b, deviceOk)) && BatchOk(c)
    requires c == Awaited(b, deviceOk).(cmds := Awaited(b, deviceOk).cmds + [Unfinished])
    ensures NextChunk(b, c)
  {
  }

  /** Waits for the current batch's chunk, then submits its next one or ends it.
      A closed output drops everything. */
  method Advance(s0: State, script: seq<seq<Move>>, tick0: nat) returns (s: State, dropped: bool, tick: nat, ghost judged: State)
    requires Inv(s0) && s0.current.Some? && s0.hand == [] && tick0 <= |script|
    ensures Inv(s) && s.current.None? && s.hand == [] && tick0 <= tick <= |script| && s.pending == s0.pending
    ensures (tick0 < |script| ==> tick > tick0) && (dropped ==> s.env.outClosed)
    ensures var b := s0.current.value;
            if dropped then
              s.inflight == [] && s.answers == s0.answers && s.lost == s0.lost + b.jobs + Flat(s0.inflight)
            else
              && judged == s0.(env := judged.env, current := judged.current) && judged.current.Some?
              && RanOut(b, judged.current.value, judged.env.say.deviceOk)
              && if s.inflight == s0.inflight then Ended(judged.current.value, judged, s)
                 else
                   && LastDone(judged.current.value)
                   && |s.inflight| == |s0.inflight| + 1 && s0.inflight == s.inflight[..|s0.inflight|]
                   && NextChunk(b, s.inflight[|s0.inflight|]) && s.answers == s0.answers && s.lost == s0.lost
  {
    hide Inv, MovedAll, BatchOk, Ended;
    s, tick := Act(s0, script, tick0);
    dropped := false;
    CurrentOk(s);
    var b := Awaited(s.current.value, s.env.say.deviceOk);
    AwaitedOk(s.current.value, s.env.say.deviceOk);
    CurrentKeeps(s, b);
    s := s.(current := Some(b));
    judged := s;
    if s.env.outClosed {
      DropAllKeeps(s);
      s, dropped := DropAll(s), true;
      return;
    }
    var r, c, ok, next := CommitNext(s, b, script, tick);
    if ok {
      NextChunkOf(s0.current.value, s.env.say.deviceOk, c);
      CurrentKeeps(r, c);
      PushBackKeeps(r.(current := Some(c)));
      s, tick := PushBack(r.(current := Some(c))), next;
    } else {
      s, tick := FinishBatch(r, script, next);
      EndedFrom(b, judged, r, s);
    }
  }

  lemma EndedFrom(b: Batch, s0: State, r: State, s: State)
    requires EnvOnly(s0, r) && Ended(b, r, s)
    ensures Ended(b, s0, s)
  {
    if s.harvested != s0.harvested {
      var n :| Delivered(r, s, b.jobs, n);
      assert Delivered(s0, s, b.jobs, n);
    }
  }

  /** The batch once the device has finished with its last chunk, or failed. */
  predicate RanOut(b: Batch, c: Batch, deviceOk: bool) {
    && c.jobs == b.jobs && c.plan == b.plan && |c.cmds| == |b.cmds|
    && forall k :: 0 <= k < |b.cmds| ==>
         c.cmds[k] == if k < |b.cmds| - 1 || b.cmds[k] != Unfinished then b.cmds[k] else if deviceOk then Completed else Faulted
  }

  datatype End = Running | OutputClosed | InputDone

  /** No batch is in flight only when the latest attempt to form one said why. */
  predicate Accounted(s: State, formed: Formed, cut: bool) {
    s.inflight == [] ==>
      && (formed == NoInput || formed == Closed || (formed == Waiting && cut))
      && (formed == NoInput ==> s.pending.None? && s.env.input == [] && s.env.inputClosed)
      && (formed == Closed ==> s.env.outClosed)
  }

  lemma AtMostTwo(s: State)
    requires Inv(s)
    ensures |s.inflight| <= 2
  {
  }

  /** One round: the oldest batch is taken out; a lone one gets a second beside it,
      without waiting for work, unless throttled; the oldest is advanced; and when
      none is left in flight the next one is waited for. */
  method Round(s0: State, maxNodes: nat, script: seq<seq<Move>>, tick0: nat)
    returns (s: State, formed: Formed, dropped: bool, tick: nat, ghost topped: State, ghost top: Formed)
    requires Inv(s0) && s0.inflight != [] && s0.hand == [] && s0.current.None? && tick0 <= |script|
    ensures Inv(s) && s.hand == [] && s.current.None? && tick0 <= tick <= |script| && (tick0 < |script| ==> tick > tick0)
    ensures if dropped then s.env.outClosed else Accounted(s, formed, tick == |script|) && |s.inflight| <= 2
    ensures topped.current == Some(s0.inflight[0])
    ensures if |s0.inflight| > 1 || s0.env.say.throttle then topped == Pop(s0)
            else
              && (topped.inflight != [] <==> top == Launched) && topped.harvested == s0.harvested
              && (top == NoInput ==> topped.pending.None? && topped.env.input == [] && topped.env.inputClosed)
              && (top == Closed ==> topped.env.outClosed)
    ensures !dropped ==> |s.inflight| >= |topped.inflight|
  {
    hide Inv, MovedAll;
    AtMostTwo(s0);
    PopKeeps(s0);
    s, tick, top, formed := Pop(s0), tick0, Waiting, Waiting;
    ghost var gated, gate;
    if s.inflight == [] && !s.env.say.throttle {
      var started;
      s, started, tick, gated, gate := FormAndCommit(s, false, maxNodes, script, tick);
      top := started;
    }
    topped := s;
    ghost var judged;
    s, dropped, tick, judged := Advance(s, script, tick);
    if dropped {
      return;
    }
    if s.inflight == [] {
      s, formed, tick, gated, gate := FormAndCommit(s, true, maxNodes, script, tick);
    }
    AtMostTwo(s);
  }

  /** The stream's loop, over any environment. */
  method RunStream(maxNodes: nat, say: Oracle, script: seq<seq<Move>>) returns (s: State, end: End, tick: nat)
    ensures Inv(s)
    ensures end == Running ==> tick == |script|
    ensures end == OutputClosed ==> s.env.outClosed
    ensures end == InputDone ==> s.env.inputClosed && s.env.input == [] && s.pending.None? && s.inflight == []
    ensures end == InputDone && !s.env.outClosed ==> multiset(Answered(s.answers)) == multiset(s.received)
  {
    s, end, tick := Initial(say), Running, 0;
    InitialInv(say);
    hide Inv, MovedAll;
    var formed;
    ghost var gated, gate;
    s, formed, tick, gated, gate := FormAndCommit(s, true, maxNodes, script, tick);
    while s.inflight != [] && tick < |script|
      invariant Inv(s) && s.hand == [] && s.current.None? && tick <= |script| && Accounted(s, formed, tick == |script|)
      decreases |script| - tick
    {
      var dropped;
      ghost var topped, top;
      s, formed, dropped, tick, topped, top := Round(s, maxNodes, script, tick);
      if dropped {
        end := OutputClosed;
        return;
      }
    }
    if s.inflight == [] && formed == NoInput {
      end := InputDone;
      if !s.env.outClosed {
        AllAnswered(s);
      }
    } else if s.inflight == [] && formed == Closed {
      end := OutputClosed;
    }
  }
}
