/**
 * The combined router (src/combined.rs): jobs from one input are queued,
 * forwarded to two engines with bounded channels, and answered once. Engines,
 * the input, the output and cancellation act between any two of its steps.
 */
module Routing {
  import opened Counts
  import opened Wrappers

  type Id = nat

  datatype Job = Job(id: Id, watermark: nat)

  datatype Outcome = Completed | Failed(fatal: bool) | Cancelled | EngineStopped | EngineUnavailable | Refused

  datatype Reply = Reply(id: Id, outcome: Outcome)

  /** One value for the GPU engine (0) and one for the matrix engine (1). */
  datatype Both<T> = Both(metal: T, ane: T) {
    function Get(e: nat): T { if e == 0 then metal else ane }

    function Set(e: nat, x: T): Both<T> { if e == 0 then Both(x, ane) else Both(metal, x) }
  }

  datatype Queued<C(==)> = Queued(job: Job, eligibility: Option<(C, Both<bool>)>)

  /** A job the router answered itself. */
  datatype Answered = Answered(job: Job, outcome: Outcome)

  /** Everything outside the router's thread. `taken` is what an engine has
      received; it answers only that, but may do so more than once, and no more
      than `room` answers wait for the router. `given` are the names it answered,
      and `early` says whether some name was ever answered more often than taken. */
  datatype Env<C> = Env(
    input: seq<Job>, inputClosed: bool, outClosed: bool, level: nat, cfg: C,
    chan: Both<seq<Id>>, taken: Both<seq<Id>>, results: Both<seq<Reply>>, gone: Both<bool>,
    room: Both<nat>, given: Both<seq<Id>>, early: bool)

  datatype Move<C> =
    | Offer(job: Job)
    | CloseInput
    | CloseOut
    | Cancel(level: nat)
    | Configure(cfg: C)
    | Take(e: nat)
    | Answer(e: nat, reply: Reply)
    | Exit(e: nat)

  function Moved<C>(v: Env<C>, m: Move<C>): Env<C> {
    match m
    case Offer(job) => if v.inputClosed then v else v.(input := v.input + [job])
    case CloseInput => v.(inputClosed := true)
    case CloseOut => v.(outClosed := true)
    case Cancel(level) => v.(level := Max(v.level, level))
    case Configure(cfg) => v.(cfg := cfg)
    case Take(e) =>
      var queue := v.chan.Get(e);
      if v.gone.Get(e) || queue == [] then v
      else v.(chan := v.chan.Set(e, queue[1..]), taken := v.taken.Set(e, v.taken.Get(e) + [queue[0]]))
    case Answer(e, reply) =>
      if v.gone.Get(e) || reply.id !in v.taken.Get(e) || |v.results.Get(e)| >= v.room.Get(e) then v
      else
        var given := v.given.Get(e) + [reply.id];
        v.(results := v.results.Set(e, v.results.Get(e) + [reply]), given := v.given.Set(e, given),
           early := v.early || Count(given, reply.id) > Count(v.taken.Get(e), reply.id))
    case Exit(e) => v.(gone := v.gone.Set(e, true), chan := v.chan.Set(e, []))
  }

  /** Jobs arrive while the input is open. */
  lemma OffersArrive<C>(v: Env<C>, m: Move<C>)
    ensures Moved(v, m).input == v.input + if m.Offer? && !v.inputClosed then [m.job] else []
    ensures Moved(v, m).inputClosed <==> v.inputClosed || m.CloseInput?
    ensures Moved(v, m).outClosed <==> v.outClosed || m.CloseOut?
    ensures Moved(v, m).level == if m.Cancel? && m.level > v.level then m.level else v.level
    ensures Moved(v, m).cfg == if m.Configure? then m.cfg else v.cfg
  {
  }

  /** An engine's replies stay within the room there is for them. */
  lemma RepliesFit<C>(v: Env<C>, m: Move<C>, e: nat)
    requires e < 2 && |v.results.Get(e)| <= v.room.Get(e)
    ensures |Moved(v, m).results.Get(e)| <= Moved(v, m).room.Get(e)
  {
  }

  /** A channel found full: what its engine had been sent, and the job refused. */
  datatype Found = Found(e: nat, sent: seq<Id>, id: Id)

  /** The router's variables, and a record of what it did: jobs `accepted`,
      `sent` to each engine, answered `direct`ly, answers `attempted`, jobs
      `lost` because the output closed, and the first channel found `full`. */
  datatype State<C(==)> = State(
    env: Env<C>, pending: seq<Queued<C>>, active: Both<seq<Id>>, dead: Both<bool>, open: Both<bool>,
    eof: bool, stop: bool,
    accepted: seq<Id>, sent: Both<seq<Id>>, direct: seq<Answered>, attempted: seq<Reply>, lost: seq<Id>,
    full: Option<Found>)

  datatype Setup = Setup(metalWidth: nat, msa: bool) {
    /** The GPU takes as many jobs as its width, at least one; the other engine one. */
    function Limit(e: nat): (n: nat)
      ensures n >= 1 && (e == 0 ==> n >= metalWidth) && (n > 1 ==> e == 0 && n == metalWidth)
    {
      if e == 0 then Max(metalWidth, 1) else 1
    }

    /** Credits for all a router's engines can hold. */
    function Capacity(): (n: nat)
      ensures n == Limit(0) + if msa then Limit(1) else 0
    {
      Max(metalWidth, 1) + if msa then 1 else 0
    }
  }

  function Ids<C>(pending: seq<Queued<C>>): (ids: seq<Id>)
    ensures |ids| == |pending|
  {
    seq(|pending|, i requires 0 <= i < |pending| => pending[i].job.id)
  }

  function ReplyIds(replies: seq<Reply>): (ids: seq<Id>)
    ensures |ids| == |replies|
  {
    seq(|replies|, i requires 0 <= i < |replies| => replies[i].id)
  }

  function DirectIds(direct: seq<Answered>): (ids: seq<Id>)
    ensures |ids| == |direct|
  {
    seq(|direct|, i requires 0 <= i < |direct| => direct[i].job.id)
  }

  /** One job name: accepted as often as it is pending, forwarded, or answered
      directly; and forwarded or answered directly as often as it is active, had
      its one answer, or was lost. */
  predicate ConservedAt<C>(s: State<C>, id: Id) {
    && Count(s.accepted, id)
       == Count(Ids(s.pending), id) + Count(s.sent.metal, id) + Count(s.sent.ane, id) + Count(DirectIds(s.direct), id)
    && Count(s.sent.metal, id) + Count(s.sent.ane, id) + Count(DirectIds(s.direct), id)
       == Count(ReplyIds(s.attempted), id) + Count(s.active.metal, id) + Count(s.active.ane, id) + Count(s.lost, id)
  }

  /** Nothing is lost and nothing is done twice. */
  ghost predicate Conserved<C>(s: State<C>) {
    && (forall id: Id :: ConservedAt(s, id))
    && (s.lost != [] ==> s.stop)
  }

  /** Credits and engine limits. */
  predicate Bounded<C>(s: State<C>, w: Setup) {
    && |s.pending| + |s.active.metal| + |s.active.ane| <= w.Capacity()
    && |s.active.metal| <= w.Limit(0) && |s.active.ane| <= w.Limit(1)
  }

  predicate Distinct(ids: seq<Id>) {
    forall i, j :: 0 <= i < j < |ids| ==> ids[i] != ids[j]
  }

  /** What an engine was sent and what it has waiting to be read is active or
      was answered. */
  predicate PipeAt(results: seq<Reply>, given: seq<Id>, active: seq<Id>, sent: seq<Id>, id: Id) {
    Count(sent, id) + Count(ReplyIds(results), id) <= Count(active, id) + Count(given, id)
  }

  predicate NotEarly(given: seq<Id>, taken: seq<Id>, id: Id) {
    Count(given, id) <= Count(taken, id)
  }

  /** One engine's channels: what it was sent is what it took and what still
      waits, in order; it answers only what it took. */
  ghost predicate Pipe(chan: seq<Id>, taken: seq<Id>, results: seq<Reply>, given: seq<Id>, active: seq<Id>, sent: seq<Id>) {
    && sent == taken + chan && (forall id :: id in given ==> id in taken)
    && forall id: Id :: PipeAt(results, given, active, sent, id)
  }

  ghost predicate PipeOf<C>(s: State<C>, w: Setup, e: nat) {
    && |s.env.chan.Get(e)| <= w.Limit(e)
    && (!s.env.early ==> forall id: Id :: NotEarly(s.env.given.Get(e), s.env.taken.Get(e), id))
    && (!s.env.gone.Get(e) ==>
          Pipe(s.env.chan.Get(e), s.env.taken.Get(e), s.env.results.Get(e), s.env.given.Get(e), s.active.Get(e), s.sent.Get(e)))
  }

  ghost predicate Pipes<C>(s: State<C>, w: Setup) {
    PipeOf(s, w, 0) && PipeOf(s, w, 1)
  }

  /** One of the last `limit` names sent was sent before them as well. */
  predicate Overtakes(sent: seq<Id>, limit: nat) {
    exists i, j :: 0 <= i < |sent| - limit <= j < |sent| && sent[i] == sent[j]
  }

  predicate AtMost(a: seq<Id>, b: seq<Id>, id: Id) {
    Count(a, id) <= Count(b, id)
  }

  /** A channel is only found full after such names, which were accepted, and
      after an engine answered a name more often than it took it. */
  ghost predicate FullOk<C>(s: State<C>, w: Setup) {
    s.full.Some? ==>
      var f := s.full.value;
      && f.e < 2 && f.sent <= s.sent.Get(f.e) && Overtakes(f.sent, w.Limit(f.e)) && s.env.early
      && forall id: Id :: AtMost(f.sent + [f.id], s.accepted, id)
  }

  predicate Gone<C>(s: State<C>) {
    && (s.env.gone.metal ==> s.env.chan.metal == [])
    && (s.env.gone.ane ==> s.env.chan.ane == [])
  }

  /** Jobs answered as cancelled are. */
  predicate Justified<C>(s: State<C>) {
    forall i :: 0 <= i < |s.direct| && s.direct[i].outcome == Cancelled ==> s.direct[i].job.watermark < s.env.level
  }

  /** Remembered eligibility is what the settings it was judged under say. */
  predicate Remembered<C(==)>(pending: seq<Queued<C>>, judge: (Job, C) -> Both<bool>) {
    forall i :: 0 <= i < |pending| && pending[i].eligibility.Some? ==>
      pending[i].eligibility.value.1 == judge(pending[i].job, pending[i].eligibility.value.0)
  }

  /** What holds in every reachable state. */
  ghost predicate Inv<C>(s: State<C>, w: Setup) {
    Conserved(s) && Bounded(s, w) && Justified(s) && Gone(s) && Pipes(s, w) && FullOk(s, w)
  }

  // Environment moves.

  lemma TakePipe(chan: seq<Id>, taken: seq<Id>, results: seq<Reply>, given: seq<Id>, active: seq<Id>, sent: seq<Id>)
    requires Pipe(chan, taken, results, given, active, sent) && chan != []
    ensures Pipe(chan[1..], taken + [chan[0]], results, given, active, sent)
  {
    assert taken + chan == (taken + [chan[0]]) + chan[1..];
    hide PipeAt;
  }

  lemma TakeNotEarly(given: seq<Id>, taken: seq<Id>, x: Id)
    requires forall id: Id :: NotEarly(given, taken, id)
    ensures forall id: Id :: NotEarly(given, taken + [x], id)
  {
    forall id: Id
      ensures NotEarly(given, taken + [x], id)
    {
      assert NotEarly(given, taken, id);
    }
  }

  lemma AnswerPipe(chan: seq<Id>, taken: seq<Id>, results: seq<Reply>, given: seq<Id>, active: seq<Id>, sent: seq<Id>, r: Reply)
    requires Pipe(chan, taken, results, given, active, sent) && r.id in taken
    ensures Pipe(chan, taken, results + [r], given + [r.id], active, sent)
  {
    ReplyIdsAppend(results, r);
    hide ReplyIds, Count;
    forall id: Id
      ensures PipeAt(results + [r], given + [r.id], active, sent, id)
    {
      assert PipeAt(results, given, active, sent, id);
      CountAppend(ReplyIds(results), r.id, id);
      CountAppend(given, r.id, id);
    }
  }

  lemma AnswerNotEarly(given: seq<Id>, taken: seq<Id>, x: Id)
    requires (forall id: Id :: NotEarly(given, taken, id)) && NotEarly(given + [x], taken, x)
    ensures forall id: Id :: NotEarly(given + [x], taken, id)
  {
    forall id: Id
      ensures NotEarly(given + [x], taken, id)
    {
      assert NotEarly(given, taken, id);
      CountAppend(given, x, id);
    }
  }

  /** A move of one engine leaves the other's channels alone. */
  lemma OtherPipe<C>(s: State<C>, now: State<C>, w: Setup, e: nat)
    requires Pipes(s, w) && e < 2 && PipeOf(now, w, e) && now.active == s.active && now.sent == s.sent
    requires s.env.early ==> now.env.early
    requires var v, u, o := s.env, now.env, 1 - e;
             && u.chan.Get(o) == v.chan.Get(o) && u.taken.Get(o) == v.taken.Get(o) && u.results.Get(o) == v.results.Get(o)
             && u.given.Get(o) == v.given.Get(o) && u.gone.Get(o) == v.gone.Get(o)
    ensures Pipes(now, w)
  {
    hide Pipe, NotEarly;
    assert PipeOf(s, w, 1 - e);
    assert PipeOf(now, w, 1 - e);
  }

  function Engine(e: nat): nat { if e == 0 then 0 else 1 }

  lemma TakeEnv<C>(v: Env<C>, e: nat)
    ensures var u, f := Moved(v, Take(e)), Engine(e);
            u == v
            || (&& v.chan.Get(f) != [] && u.chan.Get(f) == v.chan.Get(f)[1..] && u.taken.Get(f) == v.taken.Get(f) + [v.chan.Get(f)[0]]
                && u == v.(chan := u.chan, taken := u.taken)
                && u.chan.Get(1 - f) == v.chan.Get(1 - f) && u.taken.Get(1 - f) == v.taken.Get(1 - f))
  {
  }

  lemma AnswerEnv<C>(v: Env<C>, e: nat, r: Reply)
    ensures var u, f := Moved(v, Move.Answer(e, r)), Engine(e);
            u == v
            || (&& r.id in v.taken.Get(f)
                && u.results.Get(f) == v.results.Get(f) + [r] && u.given.Get(f) == v.given.Get(f) + [r.id]
                && u == v.(results := u.results, given := u.given, early := u.early)
                && (u.early <==> v.early || !NotEarly(u.given.Get(f), v.taken.Get(f), r.id))
                && u.results.Get(1 - f) == v.results.Get(1 - f) && u.given.Get(1 - f) == v.given.Get(1 - f))
  {
    hide Count;
  }

  lemma TakeKeepsPipe<C>(s: State<C>, w: Setup, e: nat)
    requires Pipes(s, w)
    ensures Pipes(s.(env := Moved(s.env, Take(e))), w)
  {
    var f := Engine(e);
    var now := s.(env := Moved(s.env, Take(e)));
    TakeEnv(s.env, e);
    hide Moved, Pipe, NotEarly;
    if now.env != s.env {
      var chan, taken := s.env.chan.Get(f), s.env.taken.Get(f);
      assert PipeOf(s, w, f);
      if !s.env.gone.Get(f) {
        TakePipe(chan, taken, s.env.results.Get(f), s.env.given.Get(f), s.active.Get(f), s.sent.Get(f));
      }
      if !s.env.early {
        TakeNotEarly(s.env.given.Get(f), taken, chan[0]);
      }
      assert PipeOf(now, w, f);
      hide PipeOf;
      OtherPipe(s, now, w, f);
    }
  }

  lemma AnswerKeepsPipe<C>(s: State<C>, w: Setup, e: nat, r: Reply)
    requires Pipes(s, w)
    ensures Pipes(s.(env := Moved(s.env, Move.Answer(e, r))), w)
  {
    var f := Engine(e);
    var now := s.(env := Moved(s.env, Move.Answer(e, r)));
    AnswerEnv(s.env, e, r);
    hide Moved, Pipe, NotEarly;
    if now.env != s.env {
      var given, taken := s.env.given.Get(f), s.env.taken.Get(f);
      assert PipeOf(s, w, f);
      if !s.env.gone.Get(f) {
        AnswerPipe(s.env.chan.Get(f), taken, s.env.results.Get(f), given, s.active.Get(f), s.sent.Get(f), r);
      }
      if !now.env.early {
        AnswerNotEarly(given, taken, r.id);
      }
      assert PipeOf(now, w, f);
      hide PipeOf;
      OtherPipe(s, now, w, f);
    }
  }

  lemma MoveKeepsPipes<C>(s: State<C>, w: Setup, m: Move<C>)
    requires Pipes(s, w)
    ensures Pipes(s.(env := Moved(s.env, m)), w)
  {
    if m.Take? {
      TakeKeepsPipe(s, w, m.e);
    } else if m.Answer? {
      AnswerKeepsPipe(s, w, m.e, m.reply);
    }
    hide Pipe, NotEarly;
  }

  lemma MoveKeepsRest<C>(s: State<C>, w: Setup, m: Move<C>)
    requires Bounded(s, w) && Justified(s) && Gone(s) && FullOk(s, w)
    ensures var now := s.(env := Moved(s.env, m)); Bounded(now, w) && Justified(now) && Gone(now) && FullOk(now, w)
  {
    hide Overtakes, AtMost, Count;
  }

  lemma MoveKeeps<C>(s: State<C>, w: Setup, m: Move<C>)
    requires Inv(s, w)
    ensures Inv(s.(env := Moved(s.env, m)), w)
  {
    hide Moved, Conserved, Pipes, FullOk, Bounded, Justified, Gone;
    OnlyEnv(s, Moved(s.env, m));
    MoveKeepsPipes(s, w, m);
    MoveKeepsRest(s, w, m);
  }

  function MovedAll<C>(v: Env<C>, moves: seq<Move<C>>): Env<C> {
    if moves == [] then v else Moved(MovedAll(v, moves[..|moves| - 1]), moves[|moves| - 1])
  }

  lemma {:induction false} MovesKeep<C>(s: State<C>, w: Setup, moves: seq<Move<C>>)
    requires Inv(s, w)
    ensures Inv(s.(env := MovedAll(s.env, moves)), w)
  {
    if moves != [] {
      MovesKeep(s, w, moves[..|moves| - 1]);
      MoveKeeps(s.(env := MovedAll(s.env, moves[..|moves| - 1])), w, moves[|moves| - 1]);
    }
  }

  // The router's steps.

  /** An answer handed to the output. A closed output stops the router. */
  function Send<C>(s: State<C>, reply: Reply): State<C> {
    s.(attempted := s.attempted + [reply], stop := s.stop || s.env.outClosed)
  }

  function SwapRemove(ids: seq<Id>, i: nat): (r: seq<Id>)
    requires i < |ids|
    ensures |r| == |ids| - 1
  {
    ids[i := ids[|ids| - 1]][..|ids| - 1]
  }

  lemma SwapRemoveIs(ids: seq<Id>, i: nat)
    requires i < |ids|
    ensures multiset(SwapRemove(ids, i)) + multiset{ids[i]} == multiset(ids)
  {
    var last := |ids| - 1;
    var moved := ids[i := ids[last]];
    assert moved == SwapRemove(ids, i) + [moved[last]];
    assert ids == ids[..last] + [ids[last]];
  }

  function Position(ids: seq<Id>, id: Id): (i: nat)
    requires id in ids
    ensures i < |ids| && ids[i] == id && id !in ids[..i]
  {
    if ids[0] == id then 0 else 1 + Position(ids[1..], id)
  }

  /** One reply taken from an engine. A reply nobody waits for is dropped; a
      fatal error retires the engine. */
  function Delivered<C>(s: State<C>, e: nat): State<C>
    requires s.env.results.Get(e) != []
  {
    var replies := s.env.results.Get(e);
    var reply, rest := replies[0], s.(env := s.env.(results := s.env.results.Set(e, replies[1..])));
    if reply.id !in s.active.Get(e) then rest
    else
      var removed := rest.(active := s.active.Set(e, SwapRemove(s.active.Get(e), Position(s.active.Get(e), reply.id))));
      var fatal := reply.outcome.Failed? && reply.outcome.fatal;
      Send(if fatal then removed.(dead := s.dead.Set(e, true), open := s.open.Set(e, false)) else removed, reply)
  }

  /** One active job answered for an engine that is gone. */
  function Orphaned<C>(s: State<C>, e: nat): State<C>
    requires s.active.Get(e) != []
  {
    var ids := s.active.Get(e);
    var sent := Send(s.(active := s.active.Set(e, ids[1..])), Reply(ids[0], EngineStopped));
    if sent.stop then sent.(active := s.active.Set(e, []), lost := s.lost + ids[1..]) else sent
  }

  /** One job taken from the input, while credits last. */
  function Accepted<C(==)>(s: State<C>, w: Setup): State<C> {
    if s.eof || |s.pending| + |s.active.metal| + |s.active.ane| >= w.Capacity() then s
    else if s.env.input != [] then
      var job := s.env.input[0];
      s.(env := s.env.(input := s.env.input[1..]), pending := s.pending + [Queued(job, None)],
         accepted := s.accepted + [job.id])
    else s.(eof := s.env.inputClosed)
  }

  /** Eligibility under the current settings, recalled or judged afresh. */
  function Judged<C(==)>(q: Queued<C>, cfg: C, judge: (Job, C) -> Both<bool>): Both<bool> {
    if q.eligibility.Some? && q.eligibility.value.0 == cfg then q.eligibility.value.1 else judge(q.job, cfg)
  }

  predicate Free<C>(s: State<C>, w: Setup, eligible: Both<bool>, e: nat) {
    eligible.Get(e) && !s.dead.Get(e) && |s.active.Get(e)| < w.Limit(e)
  }

  /** The job offered to engine `e`'s channel. */
  function Forwarded<C(==)>(s: State<C>, w: Setup, q: Queued<C>, e: nat): State<C> {
    var back := s.(pending := s.pending + [q]);
    if !s.open.Get(e) || s.env.gone.Get(e) then back.(dead := s.dead.Set(e, true))
    else if |s.env.chan.Get(e)| >= w.Limit(e) then
      back.(full := if s.full.Some? then s.full else Some(Found(e, s.sent.Get(e), q.job.id)))
    else
      s.(env := s.env.(chan := s.env.chan.Set(e, s.env.chan.Get(e) + [q.job.id])),
         active := s.active.Set(e, s.active.Get(e) + [q.job.id]),
         sent := s.sent.Set(e, s.sent.Get(e) + [q.job.id]))
  }

  function AnswerDirect<C(==)>(s: State<C>, job: Job, outcome: Outcome): State<C> {
    Send(s.(direct := s.direct + [Answered(job, outcome)]), Reply(job.id, outcome))
  }

  datatype Decision = Answer(outcome: Outcome) | Forward(e: nat) | Wait

  /** What to do with a job, given its eligibility. */
  function Decide<C>(s: State<C>, w: Setup, job: Job, eligible: Both<bool>): Decision {
    if job.watermark < s.env.level then Decision.Answer(Cancelled)
    else if Free(s, w, eligible, 1) then Forward(1)
    else if Free(s, w, eligible, 0) then Forward(0)
    else if (eligible.metal && !s.dead.metal) || (eligible.ane && !s.dead.ane) then Wait
    else if (eligible.metal && s.dead.metal) || (eligible.ane && s.dead.ane) then Decision.Answer(EngineUnavailable)
    else Decision.Answer(Refused)
  }

  /** The front job routed: answered, forwarded, or put back. */
  function Routed<C(==)>(s: State<C>, w: Setup, judge: (Job, C) -> Both<bool>): State<C>
    requires s.pending != []
  {
    var q, popped := s.pending[0], s.(pending := s.pending[1..]);
    var eligible := Judged(q, s.env.cfg, judge);
    var known := Queued(q.job, Some((s.env.cfg, eligible)));
    match Decide(s, w, q.job, eligible)
    case Answer(outcome) => AnswerDirect(popped, q.job, outcome)
    case Forward(e) => Forwarded(popped, w, known, e)
    case Wait => popped.(pending := popped.pending + [known])
  }

  // Each step keeps what holds.

  lemma ReplyIdsAppend(a: seq<Reply>, r: Reply)
    ensures ReplyIds(a + [r]) == ReplyIds(a) + [r.id]
  {
  }

  lemma DirectIdsAppend(a: seq<Answered>, d: Answered)
    ensures DirectIds(a + [d]) == DirectIds(a) + [d.job.id]
  {
  }

  lemma IdsTail<C>(a: seq<Queued<C>>)
    requires a != []
    ensures Ids(a) != [] && Ids(a)[0] == a[0].job.id && Ids(a[1..]) == Ids(a)[1..]
  {
  }

  lemma IdsAppend<C>(a: seq<Queued<C>>, q: Queued<C>)
    ensures Ids(a + [q]) == Ids(a) + [q.job.id]
  {
  }

  lemma {:induction false} DistinctOnce(ids: seq<Id>, id: Id)
    requires Distinct(ids)
    ensures multiset(ids)[id] <= 1
  {
    if ids != [] {
      var rest, last := ids[..|ids| - 1], ids[|ids| - 1];
      DistinctOnce(rest, id);
      assert ids == rest + [last];
      assert last !in rest;
    }
  }

  lemma SwapRemoveCount(ids: seq<Id>, i: nat, id: Id)
    requires i < |ids|
    ensures Count(SwapRemove(ids, i), id) + (if ids[i] == id then 1 else 0) == Count(ids, id)
  {
    SwapRemoveIs(ids, i);
    assert (multiset(SwapRemove(ids, i)) + multiset{ids[i]})[id] == multiset(ids)[id];
  }

  /** What a delivery changes, when somebody waits for the reply. */
  lemma DeliveredFields<C>(s: State<C>, e: nat, less: seq<Id>)
    requires e < 2 && s.env.results.Get(e) != [] && s.env.results.Get(e)[0].id in s.active.Get(e)
    requires less == SwapRemove(s.active.Get(e), Position(s.active.Get(e), s.env.results.Get(e)[0].id))
    ensures var now, replies := Delivered(s, e), s.env.results.Get(e);
            && now.env == s.env.(results := s.env.results.Set(e, replies[1..]))
            && now.attempted == s.attempted + [replies[0]]
            && now.active == s.active.Set(e, less)
            && now.stop == (s.stop || s.env.outClosed)
            && Same(s, now)
  {
  }

  lemma IgnoredFields<C>(s: State<C>, e: nat)
    requires e < 2 && s.env.results.Get(e) != [] && s.env.results.Get(e)[0].id !in s.active.Get(e)
    ensures var now, replies := Delivered(s, e), s.env.results.Get(e);
            now == s.(env := s.env.(results := s.env.results.Set(e, replies[1..])))
  {
  }

  /** The parts of the record that answering an active job leaves alone. */
  predicate Same<C>(s: State<C>, now: State<C>) {
    && now.accepted == s.accepted && now.pending == s.pending && now.sent == s.sent
    && now.direct == s.direct && now.lost == s.lost && now.full == s.full
  }

  lemma ReplyIdsTail(a: seq<Reply>)
    requires a != []
    ensures ReplyIds(a) != [] && ReplyIds(a)[0] == a[0].id && ReplyIds(a[1..]) == ReplyIds(a)[1..]
  {
  }

  /** A reply read: the job it answers leaves the active list, if it is there. */
  lemma ReadPipe(chan: seq<Id>, taken: seq<Id>, results: seq<Reply>, given: seq<Id>, active: seq<Id>, less: seq<Id>, sent: seq<Id>)
    requires Pipe(chan, taken, results, given, active, sent) && results != []
    requires forall id: Id ::
               Count(less, id) == Count(active, id) || (id == results[0].id && Count(less, id) + 1 == Count(active, id))
    ensures Pipe(chan, taken, results[1..], given, less, sent)
  {
    ReplyIdsTail(results);
    hide ReplyIds;
    forall id: Id
      ensures PipeAt(results[1..], given, less, sent, id)
    {
      assert PipeAt(results, given, active, sent, id);
      CountHead(ReplyIds(results), id);
    }
  }

  lemma ReadKeepsPipes<C>(s: State<C>, now: State<C>, w: Setup, e: nat, less: seq<Id>)
    requires Pipes(s, w) && e < 2 && s.env.results.Get(e) != []
    requires now.env == s.env.(results := s.env.results.Set(e, s.env.results.Get(e)[1..]))
    requires now.active == s.active.Set(e, less) && now.sent == s.sent
    requires forall id: Id ::
               Count(less, id) == Count(s.active.Get(e), id)
               || (id == s.env.results.Get(e)[0].id && Count(less, id) + 1 == Count(s.active.Get(e), id))
    ensures Pipes(now, w)
  {
    assert PipeOf(s, w, e) && PipeOf(s, w, 1 - e);
    if !s.env.gone.Get(e) {
      ReadPipe(s.env.chan.Get(e), s.env.taken.Get(e), s.env.results.Get(e), s.env.given.Get(e), s.active.Get(e), less,
               s.sent.Get(e));
    }
    hide Pipe, NotEarly, Count;
    assert PipeOf(now, w, e) && PipeOf(now, w, 1 - e);
  }

  /** What was found stays found. */
  lemma FullStays<C>(s: State<C>, now: State<C>, w: Setup)
    requires FullOk(s, w) && now.full == s.full && (s.env.early ==> now.env.early)
    requires forall e :: 0 <= e < 2 ==> s.sent.Get(e) <= now.sent.Get(e)
    requires s.accepted <= now.accepted
    ensures FullOk(now, w)
  {
    if s.full.Some? {
      var f := s.full.value;
      forall id: Id
        ensures AtMost(f.sent + [f.id], now.accepted, id)
      {
        assert AtMost(f.sent + [f.id], s.accepted, id);
        CountPrefix(s.accepted, now.accepted, id);
        hide Count;
      }
      hide AtMost, Overtakes;
      assert s.sent.Get(f.e) <= now.sent.Get(f.e);
    }
  }

  lemma CountPrefix(a: seq<Id>, b: seq<Id>, id: Id)
    requires a <= b
    ensures Count(a, id) <= Count(b, id)
  {
    CountConcat(a, b[|a|..], id);
    assert b == a + b[|a|..];
  }

  /** An active job answered: its list loses it, the answers gain it. */
  lemma AnsweringConserves<C>(s: State<C>, now: State<C>, e: nat, less: seq<Id>, reply: Reply)
    requires Conserved(s) && Same(s, now) && e < 2
    requires now.attempted == s.attempted + [reply] && now.active == s.active.Set(e, less) && (s.stop ==> now.stop)
    requires forall id: Id :: Count(less, id) + (if reply.id == id then 1 else 0) == Count(s.active.Get(e), id)
    ensures Conserved(now)
  {
    hide Count, Ids, DirectIds;
    ReplyIdsAppend(s.attempted, reply);
    hide ReplyIds;
    forall id: Id
      ensures ConservedAt(now, id)
    {
      assert ConservedAt(s, id);
      CountAppend(ReplyIds(s.attempted), reply.id, id);
    }
  }

  lemma DeliveredKeeps<C>(s: State<C>, w: Setup, e: nat)
    requires Inv(s, w) && e < 2 && s.env.results.Get(e) != []
    ensures Inv(Delivered(s, e), w)
  {
    hide Inv, Delivered;
    if s.env.results.Get(e)[0].id in s.active.Get(e) {
      WaitedKeeps(s, w, e);
    } else {
      IgnoredKeeps(s, w, e);
    }
  }

  lemma WaitedKeeps<C>(s: State<C>, w: Setup, e: nat)
    requires Inv(s, w) && e < 2 && s.env.results.Get(e) != [] && s.env.results.Get(e)[0].id in s.active.Get(e)
    ensures Inv(Delivered(s, e), w)
  {
    var ids, replies, now := s.active.Get(e), s.env.results.Get(e), Delivered(s, e);
    var i := Position(ids, replies[0].id);
    var less := SwapRemove(ids, i);
    DeliveredFields(s, e, less);
    hide Delivered, SwapRemove, Position, Conserved, Pipes;
    forall id: Id
      ensures Count(less, id) + (if replies[0].id == id then 1 else 0) == Count(ids, id)
    {
      SwapRemoveCount(ids, i, id);
    }
    hide Count;
    AnsweringConserves(s, now, e, less, replies[0]);
    ReadKeepsPipes(s, now, w, e, less);
    FullStays(s, now, w);
    hide FullOk;
  }

  lemma IgnoredKeeps<C>(s: State<C>, w: Setup, e: nat)
    requires Inv(s, w) && e < 2 && s.env.results.Get(e) != [] && s.env.results.Get(e)[0].id !in s.active.Get(e)
    ensures Inv(Delivered(s, e), w)
  {
    var now := Delivered(s, e);
    IgnoredFields(s, e);
    hide Delivered, ConservedAt, Pipes;
    OnlyEnv(s, now.env);
    ReadKeepsPipes(s, now, w, e, s.active.Get(e));
    FullStays(s, now, w);
    hide FullOk;
  }

  lemma OnlyEnv<C>(s: State<C>, v: Env<C>)
    requires Conserved(s)
    ensures Conserved(s.(env := v))
  {
    forall id: Id
      ensures ConservedAt(s.(env := v), id)
    {
      assert ConservedAt(s, id);
    }
  }

  lemma LoseConserves<C>(s: State<C>, e: nat)
    requires Conserved(s) && e < 2 && s.stop
    ensures Conserved(s.(active := s.active.Set(e, []), lost := s.lost + s.active.Get(e)))
  {
    hide Ids, DirectIds, ReplyIds;
    forall id: Id
      ensures ConservedAt(s.(active := s.active.Set(e, []), lost := s.lost + s.active.Get(e)), id)
    {
      assert ConservedAt(s, id);
      CountConcat(s.lost, s.active.Get(e), id);
    }
  }

  /** A gone engine's active list is its own affair. */
  lemma GonePipes<C>(s: State<C>, now: State<C>, w: Setup, e: nat, less: seq<Id>)
    requires Pipes(s, w) && e < 2 && s.env.gone.Get(e)
    requires now.env == s.env && now.sent == s.sent && now.active == s.active.Set(e, less)
    ensures Pipes(now, w)
  {
    hide Pipe, NotEarly;
    assert PipeOf(s, w, e) && PipeOf(s, w, 1 - e);
    assert PipeOf(now, w, e) && PipeOf(now, w, 1 - e);
  }

  lemma OrphanedKeeps<C>(s: State<C>, w: Setup, e: nat)
    requires Inv(s, w) && e < 2 && s.active.Get(e) != [] && s.env.gone.Get(e)
    ensures Inv(Orphaned(s, e), w)
  {
    var ids := s.active.Get(e);
    var sent := Send(s.(active := s.active.Set(e, ids[1..])), Reply(ids[0], EngineStopped));
    forall id: Id
      ensures Count(ids[1..], id) + (if ids[0] == id then 1 else 0) == Count(ids, id)
    {
      CountHead(ids, id);
    }
    AnsweringConserves(s, sent, e, ids[1..], Reply(ids[0], EngineStopped));
    if sent.stop {
      LoseConserves(sent, e);
    }
    hide Conserved, Pipes, FullOk;
    GonePipes(s, Orphaned(s, e), w, e, Orphaned(s, e).active.Get(e));
    FullStays(s, Orphaned(s, e), w);
  }

  lemma AcceptingConserves<C>(s: State<C>, job: Job, v: Env<C>)
    requires Conserved(s)
    ensures Conserved(s.(env := v, pending := s.pending + [Queued(job, None)], accepted := s.accepted + [job.id]))
  {
    var now := s.(env := v, pending := s.pending + [Queued(job, None)], accepted := s.accepted + [job.id]);
    IdsAppend(s.pending, Queued(job, None));
    hide ReplyIds, Ids, DirectIds, Count;
    forall id: Id
      ensures ConservedAt(now, id)
    {
      assert ConservedAt(s, id);
      CountAppend(s.accepted, job.id, id);
      CountAppend(Ids(s.pending), job.id, id);
    }
  }

  lemma AcceptedConserves<C>(s: State<C>, w: Setup)
    requires Conserved(s)
    ensures Conserved(Accepted(s, w))
  {
    if s.env.input != [] {
      AcceptingConserves(s, s.env.input[0], s.env.(input := s.env.input[1..]));
    }
    hide ReplyIds, Ids, DirectIds, Count;
    forall id: Id
      ensures ConservedAt(s.(eof := s.env.inputClosed), id)
    {
      assert ConservedAt(s, id);
    }
    hide ConservedAt;
  }

  lemma AcceptedKeeps<C>(s: State<C>, w: Setup)
    requires Inv(s, w)
    ensures Inv(Accepted(s, w), w)
  {
    hide Conserved, Pipes, FullOk;
    AcceptedConserves(s, w);
    FullStays(s, Accepted(s, w), w);
    SamePipes(s, Accepted(s, w), w);
  }

  lemma SamePipes<C>(s: State<C>, now: State<C>, w: Setup)
    requires Pipes(s, w) && now.sent == s.sent && now.active == s.active
    requires now.env == s.env.(input := now.env.input)
    ensures Pipes(now, w)
  {
    hide Pipe, NotEarly;
  }

  lemma AnsweredConserves<C>(s: State<C>, outcome: Outcome)
    requires Conserved(s) && s.pending != []
    ensures Conserved(AnswerDirect(s.(pending := s.pending[1..]), s.pending[0].job, outcome))
  {
    var job := s.pending[0].job;
    var now := AnswerDirect(s.(pending := s.pending[1..]), job, outcome);
    IdsTail(s.pending);
    DirectIdsAppend(s.direct, Answered(job, outcome));
    ReplyIdsAppend(s.attempted, Reply(job.id, outcome));
    hide ReplyIds, Ids, DirectIds, Count;
    forall id: Id
      ensures ConservedAt(now, id)
    {
      assert ConservedAt(s, id);
      CountHead(Ids(s.pending), id);
      CountAppend(DirectIds(s.direct), job.id, id);
      CountAppend(ReplyIds(s.attempted), job.id, id);
    }
  }

  lemma AnsweredKeeps<C>(s: State<C>, w: Setup, outcome: Outcome)
    requires Inv(s, w) && s.pending != []
    requires outcome == Cancelled ==> s.pending[0].job.watermark < s.env.level
    ensures Inv(AnswerDirect(s.(pending := s.pending[1..]), s.pending[0].job, outcome), w)
  {
    var job := s.pending[0].job;
    var now := AnswerDirect(s.(pending := s.pending[1..]), job, outcome);
    hide Conserved, Pipes, FullOk;
    AnsweredConserves(s, outcome);
    FullStays(s, now, w);
    SamePipes(s, now, w);
    assert Justified(now);
  }

  lemma PutBackConserves<C>(s: State<C>, q: Queued<C>)
    requires Conserved(s) && s.pending != [] && q.job == s.pending[0].job
    ensures Conserved(s.(pending := s.pending[1..] + [q]))
  {
    hide ReplyIds, Ids, DirectIds, Count;
    IdsTail(s.pending);
    IdsAppend(s.pending[1..], q);
    forall id: Id
      ensures ConservedAt(s.(pending := s.pending[1..] + [q]), id)
    {
      assert ConservedAt(s, id);
      CountHead(Ids(s.pending), id);
      CountAppend(Ids(s.pending[1..]), q.job.id, id);
    }
  }

  lemma PutBackKeeps<C>(s: State<C>, w: Setup, q: Queued<C>)
    requires Inv(s, w) && s.pending != [] && q.job == s.pending[0].job
    ensures Inv(s.(pending := s.pending[1..] + [q]), w)
  {
    hide Conserved, FullOk, Pipes;
    var now := s.(pending := s.pending[1..] + [q]);
    PutBackConserves(s, q);
    FullStays(s, now, w);
    SamePipes(s, now, w);
  }

  lemma PushPipe(chan: seq<Id>, taken: seq<Id>, results: seq<Reply>, given: seq<Id>, active: seq<Id>, sent: seq<Id>, x: Id)
    requires Pipe(chan, taken, results, given, active, sent)
    ensures Pipe(chan + [x], taken, results, given, active + [x], sent + [x])
  {
    assert (taken + chan) + [x] == taken + (chan + [x]);
    forall id: Id
      ensures PipeAt(results, given, active + [x], sent + [x], id)
    {
      assert PipeAt(results, given, active, sent, id);
      CountAppend(active, x, id);
      CountAppend(sent, x, id);
      hide Count;
    }
  }

  /** A channel holding more than its active list has room for: some name in it
      was taken before, and answered more often than taken. */
  lemma FullMeans(chan: seq<Id>, taken: seq<Id>, results: seq<Reply>, given: seq<Id>, active: seq<Id>, sent: seq<Id>)
    returns (id: Id)
    requires Pipe(chan, taken, results, given, active, sent) && |active| < |chan|
    ensures id in chan && id in taken && !NotEarly(given, taken, id)
    ensures Overtakes(sent, |chan|)
  {
    if forall x: Id :: Count(chan, x) <= Count(active, x) {
      CountTotal(chan, active);
      assert false;
    }
    id :| Count(chan, id) > Count(active, id);
    assert PipeAt(results, given, active, sent, id);
    CountConcat(taken, chan, id);
    assert id in given;
    var i :| 0 <= i < |taken| && taken[i] == id;
    var j :| 0 <= j < |chan| && chan[j] == id;
    assert sent[i] == sent[|taken| + j];
  }

  /** While no engine has answered a name more often than it took it, or the last
      names sent are new, an engine's channel has room when its active list has. */
  lemma ChannelHasRoom<C>(s: State<C>, w: Setup, e: nat)
    requires Pipes(s, w) && e < 2 && |s.active.Get(e)| < w.Limit(e) && !s.env.gone.Get(e)
    requires !s.env.early || !Overtakes(s.sent.Get(e), w.Limit(e))
    ensures |s.env.chan.Get(e)| < w.Limit(e)
  {
    assert PipeOf(s, w, e);
    if |s.env.chan.Get(e)| >= w.Limit(e) {
      var id := FullMeans(s.env.chan.Get(e), s.env.taken.Get(e), s.env.results.Get(e), s.env.given.Get(e), s.active.Get(e),
                          s.sent.Get(e));
    }
  }

  lemma SentKeeps<C>(s: State<C>, w: Setup, e: nat, id: Id)
    requires Inv(s, w) && s.pending != [] && id == s.pending[0].job.id && e < 2
    requires |s.active.Get(e)| < w.Limit(e) && !s.env.gone.Get(e) && |s.env.chan.Get(e)| < w.Limit(e)
    ensures Inv(s.(pending := s.pending[1..],
                   env := s.env.(chan := s.env.chan.Set(e, s.env.chan.Get(e) + [id])),
                   active := s.active.Set(e, s.active.Get(e) + [id]),
                   sent := s.sent.Set(e, s.sent.Get(e) + [id])), w)
  {
    var now := s.(pending := s.pending[1..],
                  env := s.env.(chan := s.env.chan.Set(e, s.env.chan.Get(e) + [id])),
                  active := s.active.Set(e, s.active.Get(e) + [id]),
                  sent := s.sent.Set(e, s.sent.Get(e) + [id]));
    hide Conserved, Pipes, FullOk;
    SentConserves(s, now, e, id);
    SentKeepsPipes(s, now, w, e, id);
    SentFull(s, now, w, e, id);
  }

  lemma SentConserves<C>(s: State<C>, now: State<C>, e: nat, id: Id)
    requires Conserved(s) && s.pending != [] && id == s.pending[0].job.id && e < 2
    requires now == s.(pending := s.pending[1..], env := now.env, active := s.active.Set(e, s.active.Get(e) + [id]),
                       sent := s.sent.Set(e, s.sent.Get(e) + [id]))
    ensures Conserved(now)
  {
    IdsTail(s.pending);
    hide ReplyIds, Ids, DirectIds, Count;
    forall x: Id
      ensures ConservedAt(now, x)
    {
      assert ConservedAt(s, x);
      CountHead(Ids(s.pending), x);
      CountAppend(s.active.Get(e), id, x);
      CountAppend(s.sent.Get(e), id, x);
    }
  }

  lemma SentFull<C>(s: State<C>, now: State<C>, w: Setup, e: nat, id: Id)
    requires FullOk(s, w) && e < 2 && now.full == s.full && now.env.early == s.env.early
    requires now.accepted == s.accepted && now.sent == s.sent.Set(e, s.sent.Get(e) + [id])
    ensures FullOk(now, w)
  {
    forall o | 0 <= o < 2
      ensures s.sent.Get(o) <= now.sent.Get(o)
    {
    }
    FullStays(s, now, w);
  }

  lemma SentKeepsPipes<C>(s: State<C>, now: State<C>, w: Setup, e: nat, id: Id)
    requires Pipes(s, w) && e < 2 && !s.env.gone.Get(e) && |s.env.chan.Get(e)| < w.Limit(e)
    requires now.env == s.env.(chan := s.env.chan.Set(e, s.env.chan.Get(e) + [id]))
    requires now.active == s.active.Set(e, s.active.Get(e) + [id]) && now.sent == s.sent.Set(e, s.sent.Get(e) + [id])
    ensures Pipes(now, w)
  {
    assert PipeOf(s, w, e) && PipeOf(s, w, 1 - e);
    PushPipe(s.env.chan.Get(e), s.env.taken.Get(e), s.env.results.Get(e), s.env.given.Get(e), s.active.Get(e),
             s.sent.Get(e), id);
    hide Pipe, NotEarly;
    assert PipeOf(now, w, e) && PipeOf(now, w, 1 - e);
  }

  /** A job forwarded joins its engine's channel, active jobs and sent names; with its
      sender or the engine gone it goes back to the end of the queue and the engine
      is out of service; and with the channel full it only goes back. */
  lemma ForwardedMeans<C>(s: State<C>, w: Setup, q: Queued<C>, e: nat)
    requires e < 2
    ensures var r, id := Forwarded(s, w, q, e), q.job.id;
            if s.open.Get(e) && !s.env.gone.Get(e) && |s.env.chan.Get(e)| < w.Limit(e) then
              && r.pending == s.pending && r.dead == s.dead && r.full == s.full
              && r.env.chan.Get(e) == s.env.chan.Get(e) + [id]
              && r.active.Get(e) == s.active.Get(e) + [id] && r.sent.Get(e) == s.sent.Get(e) + [id]
            else
              && r.pending == s.pending + [q] && r.active == s.active && r.sent == s.sent && r.env == s.env
              && (r.dead.Get(e) <==> s.dead.Get(e) || !s.open.Get(e) || s.env.gone.Get(e))
              && (r.full != s.full ==> s.open.Get(e) && !s.env.gone.Get(e) && s.full.None?)
              && (s.open.Get(e) && !s.env.gone.Get(e) ==> r.full.Some?)
  {
  }

  lemma ForwardedKeeps<C>(s: State<C>, w: Setup, q: Queued<C>, e: nat)
    requires Inv(s, w) && s.pending != [] && q.job == s.pending[0].job && e < 2
    requires |s.active.Get(e)| < w.Limit(e)
    ensures Inv(Forwarded(s.(pending := s.pending[1..]), w, q, e), w)
  {
    PutBackKeeps(s, w, q);
    var back := s.(pending := s.pending[1..] + [q]);
    if !s.open.Get(e) || s.env.gone.Get(e) {
      DeadKeeps(back, w, e);
    } else if |s.env.chan.Get(e)| >= w.Limit(e) {
      FullKeeps(s, w, q, e);
    } else {
      SentKeeps(s, w, e, q.job.id);
    }
    hide Inv;
  }

  lemma DeadKeeps<C>(s: State<C>, w: Setup, e: nat)
    requires Inv(s, w)
    ensures Inv(s.(dead := s.dead.Set(e, true)), w)
  {
    var now := s.(dead := s.dead.Set(e, true));
    assert forall id: Id :: ConservedAt(s, id) ==> ConservedAt(now, id);
    SamePipes(s, now, w);
    FullStays(s, now, w);
    hide ConservedAt, Pipes, FullOk;
  }

  /** A channel is found full: the names sent say why, and the engine's answers. */
  lemma FullKeeps<C>(s: State<C>, w: Setup, q: Queued<C>, e: nat)
    requires Inv(s, w) && s.pending != [] && q.job == s.pending[0].job && e < 2 && !s.env.gone.Get(e)
    requires |s.active.Get(e)| < w.Limit(e) <= |s.env.chan.Get(e)|
    ensures var found := if s.full.Some? then s.full else Some(Found(e, s.sent.Get(e), q.job.id));
            Inv(s.(pending := s.pending[1..] + [q], full := found), w)
  {
    var back := s.(pending := s.pending[1..] + [q]);
    var f := Found(e, s.sent.Get(e), q.job.id);
    PutBackKeeps(s, w, q);
    if s.full.None? {
      assert PipeOf(s, w, e);
      var x := FullMeans(s.env.chan.Get(e), s.env.taken.Get(e), s.env.results.Get(e), s.env.given.Get(e), s.active.Get(e),
                         s.sent.Get(e));
      IdsTail(s.pending);
      forall id: Id
        ensures AtMost(f.sent + [f.id], s.accepted, id)
      {
        assert ConservedAt(s, id);
        CountHead(Ids(s.pending), id);
        CountAppend(f.sent, f.id, id);
        hide ReplyIds, Ids, DirectIds, Count;
      }
      FullNoted(back, w, f);
    }
    hide Inv;
  }

  lemma FullNoted<C>(s: State<C>, w: Setup, f: Found)
    requires Inv(s, w) && f.e < 2 && f.sent <= s.sent.Get(f.e) && Overtakes(f.sent, w.Limit(f.e)) && s.env.early
    requires forall id: Id :: AtMost(f.sent + [f.id], s.accepted, id)
    ensures Inv(s.(full := Some(f)), w)
  {
    var now := s.(full := Some(f));
    forall id: Id
      ensures ConservedAt(now, id)
    {
      assert ConservedAt(s, id);
    }
    SamePipes(s, now, w);
    hide ConservedAt, Pipes, AtMost, Overtakes;
  }

  lemma RoutedKeeps<C>(s: State<C>, w: Setup, judge: (Job, C) -> Both<bool>)
    requires Inv(s, w) && s.pending != []
    ensures Inv(Routed(s, w, judge), w)
  {
    var q := s.pending[0];
    var eligible := Judged(q, s.env.cfg, judge);
    match Decide(s, w, q.job, eligible)
    case Answer(outcome) => AnsweredKeeps(s, w, outcome);
    case Forward(e) => ForwardedKeeps(s, w, Queued(q.job, Some((s.env.cfg, eligible))), e);
    case Wait => PutBackKeeps(s, w, Queued(q.job, Some((s.env.cfg, eligible))));
  }

  // Decisions.

  /** The decision, judged under the settings of the moment: a job is answered as
      cancelled exactly when it is; it goes only to an eligible, living engine
      with room, the matrix engine first; it is refused exactly when no engine
      is eligible, and told of a failure exactly when every eligible one is
      dead. */
  lemma Decides<C>(s: State<C>, w: Setup, job: Job, eligible: Both<bool>)
    ensures var d, cancelled := Decide(s, w, job, eligible), job.watermark < s.env.level;
            && (d == Decision.Answer(Cancelled) <==> cancelled)
            && (d == Decision.Answer(Refused) <==> !cancelled && !eligible.metal && !eligible.ane)
            && (d == Decision.Answer(EngineUnavailable)
                <==> !cancelled && (eligible.metal || eligible.ane)
                     && (eligible.metal ==> s.dead.metal) && (eligible.ane ==> s.dead.ane))
            && (d == Forward(1) <==> !cancelled && Free(s, w, eligible, 1))
            && (d == Forward(0) <==> !cancelled && Free(s, w, eligible, 0) && !Free(s, w, eligible, 1))
  {
  }

  /** A remembered judgement is the one a fresh look would give, and stays so. */
  lemma JudgedFresh<C>(s: State<C>, w: Setup, judge: (Job, C) -> Both<bool>)
    requires s.pending != [] && Remembered(s.pending, judge)
    ensures Judged(s.pending[0], s.env.cfg, judge) == judge(s.pending[0].job, s.env.cfg)
    ensures Remembered(Routed(s, w, judge).pending, judge)
  {
    assert Remembered(s.pending[1..], judge);
    hide Decide;
  }

  // The loop, as a function of what the environment does.

  function ActOf<C>(s: State<C>, script: seq<seq<Move<C>>>, tick: nat): (r: (State<C>, nat))
    requires tick <= |script|
    ensures tick <= r.1 <= |script| && (tick < |script| ==> r.1 == tick + 1) && r.0 == s.(env := r.0.env)
  {
    if tick < |script| then (s.(env := MovedAll(s.env, script[tick])), tick + 1) else (s, tick)
  }

  /** The jobs of an engine that is gone, answered one by one. */
  function RetireOf<C>(s: State<C>, e: nat, script: seq<seq<Move<C>>>, tick: nat): (r: (State<C>, nat))
    requires e < 2 && tick <= |script|
    ensures tick <= r.1 <= |script|
    decreases |s.active.Get(e)|
  {
    if s.active.Get(e) == [] then (s, tick)
    else
      var (a, next) := ActOf(s, script, tick);
      OrphanedEngine(a, e);
      RetireOf(Orphaned(a, e), e, script, next)
  }

  /** The replies an engine has ready, taken until there is none. */
  function DrainOf<C>(s: State<C>, e: nat, script: seq<seq<Move<C>>>, tick: nat): (r: (State<C>, nat))
    requires e < 2 && tick <= |script|
    ensures tick <= r.1 <= |script| && (tick < |script| ==> r.1 > tick)
    decreases |script| - tick, |s.env.results.Get(e)|
  {
    var (a, next) := ActOf(s, script, tick);
    var replies := a.env.results.Get(e);
    if replies != [] then
      DeliveredEngine(a, e);
      if replies[0].id in a.active.Get(e) && a.env.outClosed then (Delivered(a, e), next)
      else DrainOf(Delivered(a, e), e, script, next)
    else if a.env.gone.Get(e) then RetireOf(a.(dead := a.dead.Set(e, true)), e, script, next)
    else (a, next)
  }

  /** `n` pending jobs looked at. */
  function RouteOf<C(==)>(s: State<C>, w: Setup, judge: (Job, C) -> Both<bool>, script: seq<seq<Move<C>>>, tick: nat, n: nat)
    : (r: (State<C>, nat))
    requires tick <= |script|
    ensures tick <= r.1 <= |script|
    decreases n
  {
    if n == 0 then (s, tick)
    else
      var (a, next) := ActOf(s, script, tick);
      if a.pending == [] then (a, next)
      else
        var b := Routed(a, w, judge);
        if |b.direct| > |a.direct| && b.env.outClosed then (b, next) else RouteOf(b, w, judge, script, next, n - 1)
  }

  /** The loop from one state on: drain both engines, take a job, route. */
  function LoopOf<C(==)>(s: State<C>, w: Setup, judge: (Job, C) -> Both<bool>, script: seq<seq<Move<C>>>, tick: nat)
    : (r: (State<C>, End, nat))
    requires tick <= |script|
    ensures r.2 <= |script|
    decreases |script| - tick
  {
    if tick >= |script| then (s, Running, tick)
    else
      var (a, t1) := ActOf(s, script, tick);
      if a.env.outClosed then (a, OutputClosed, t1)
      else
        var (b, t2) := DrainOf(a, 0, script, t1);
        var (c, t3) := DrainOf(b, 1, script, t2);
        if c.stop then (c, OutputClosed, t3)
        else
          var (d, t4) := ActOf(c, script, t3);
          var f := Accepted(d, w);
          var (g, t5) := RouteOf(f, w, judge, script, t4, |f.pending|);
          if g.eof && g.pending == [] then
            var h := g.(open := Both(false, false));
            if h.active.metal == [] && h.active.ane == [] then (h, InputDone, t5) else LoopOf(h, w, judge, script, t5)
          else LoopOf(g, w, judge, script, t5)
  }

  /** A whole run of the router. */
  function RunOf<C(==)>(w: Setup, judge: (Job, C) -> Both<bool>, cfg: C, script: seq<seq<Move<C>>>): (State<C>, End, nat) {
    var (s, end, tick) := LoopOf(Initial(w, cfg), w, judge, script, 0);
    (if end == Running then s else s.(stop := true, open := Both(false, false)), end, tick)
  }

  // The run.

  lemma {:induction false} GoneStays<C>(v: Env<C>, moves: seq<Move<C>>, e: nat)
    requires v.gone.Get(e) && v.results.Get(e) == [] && e < 2
    ensures MovedAll(v, moves).gone.Get(e) && MovedAll(v, moves).results.Get(e) == []
  {
    hide Moved;
    if moves != [] {
      var last := |moves| - 1;
      GoneStays(v, moves[..last], e);
      GoneOnce(MovedAll(v, moves[..last]), moves[last], e);
    }
  }

  /** A gone engine takes and answers nothing more. */
  lemma GoneOnce<C>(v: Env<C>, m: Move<C>, e: nat)
    requires v.gone.Get(e) && v.results.Get(e) == [] && e < 2
    ensures Moved(v, m).gone.Get(e) && Moved(v, m).results.Get(e) == []
  {
  }

  /** Lets the environment act, as the script says. */
  method Act<C>(s: State<C>, ghost w: Setup, script: seq<seq<Move<C>>>, tick: nat) returns (r: State<C>, next: nat)
    requires Inv(s, w) && tick <= |script|
    ensures Inv(r, w) && tick <= next <= |script| && (tick < |script| ==> next == tick + 1)
    ensures (r, next) == ActOf(s, script, tick)
  {
    r, next := s, tick;
    if tick < |script| {
      MovesKeep(s, w, script[tick]);
      r := s.(env := MovedAll(s.env, script[tick]));
      next := tick + 1;
    }
  }

  /** Only answers were added: nothing accepted, sent or answered directly. */
  predicate Replied<C>(s: State<C>, r: State<C>) {
    s.attempted <= r.attempted && r.accepted == s.accepted && r.sent == s.sent && r.direct == s.direct && r.full == s.full
  }

  /** The other engine was left alone. */
  predicate OtherSame<C>(s: State<C>, r: State<C>, e: nat)
    requires e < 2
  {
    && r.active.Get(1 - e) == s.active.Get(1 - e) && r.dead.Get(1 - e) == s.dead.Get(1 - e)
    && r.open.Get(1 - e) == s.open.Get(1 - e)
  }

  /** The answers added say that the engine stopped. */
  predicate Stopped<C>(s: State<C>, r: State<C>) {
    && |s.attempted| <= |r.attempted|
    && forall i :: |s.attempted| <= i < |r.attempted| ==> r.attempted[i].outcome == EngineStopped
  }

  lemma OrphanedEngine<C>(s: State<C>, e: nat)
    requires e < 2 && s.active.Get(e) != []
    ensures var r := Orphaned(s, e);
            && Replied(s, r) && OtherSame(s, r, e) && r.dead == s.dead && r.open == s.open && r.env == s.env
            && r.pending == s.pending && r.eof == s.eof && (s.stop ==> r.stop)
            && r.attempted == s.attempted + [Reply(s.active.Get(e)[0], EngineStopped)]
            && |r.active.Get(e)| < |s.active.Get(e)|
            && (r.stop || r.lost == s.lost)
  {
  }

  predicate Fatal(reply: Reply) {
    reply.outcome.Failed? && reply.outcome.fatal
  }

  /** A fatal answer takes its engine out of service. */
  predicate FatalsKill<C>(s: State<C>, r: State<C>, e: nat) {
    && |s.attempted| <= |r.attempted|
    && forall i :: |s.attempted| <= i < |r.attempted| && Fatal(r.attempted[i]) ==> r.dead.Get(e) && !r.open.Get(e)
  }

  /** What draining engine `e` may have done. */
  predicate Drained<C>(s: State<C>, r: State<C>, e: nat)
    requires e < 2
  {
    && Replied(s, r) && OtherSame(s, r, e) && FatalsKill(s, r, e) && (s.dead.Get(e) ==> r.dead.Get(e))
    && r.pending == s.pending && r.eof == s.eof && (s.lost == [] && !r.stop ==> r.lost == [])
  }

  lemma DrainedNone<C>(s: State<C>, e: nat)
    requires e < 2
    ensures Drained(s, s, e)
  {
  }

  lemma DrainedAct<C>(s0: State<C>, s: State<C>, v: Env<C>, e: nat)
    requires e < 2 && Drained(s0, s, e)
    ensures Drained(s0, s.(env := v), e)
  {
  }

  lemma StoppedKills<C>(s0: State<C>, s: State<C>, r: State<C>, e: nat)
    requires e < 2 && Drained(s0, s, e) && Stopped(s, r) && Replied(s, r) && OtherSame(s, r, e)
    requires r.open == s.open && r.dead.Get(e) && r.pending == s.pending && r.eof == s.eof
    requires (s.stop ==> r.stop) && (s.lost == [] && !r.stop ==> r.lost == [])
    ensures Drained(s0, r, e)
  {
    assert forall i :: 0 <= i < |s.attempted| ==> r.attempted[i] == s.attempted[i];
  }

  /** One more answer, if any, that kills its engine when it is fatal. */
  lemma KillsMore<C>(s0: State<C>, s: State<C>, now: State<C>, e: nat, reply: Reply)
    requires FatalsKill(s0, s, e)
    requires if now.attempted == s.attempted then now.dead == s.dead && now.open == s.open
             else
               && now.attempted == s.attempted + [reply]
               && (now.dead.Get(e) <==> s.dead.Get(e) || Fatal(reply))
               && (now.open.Get(e) <==> s.open.Get(e) && !Fatal(reply))
    ensures FatalsKill(s0, now, e)
  {
    hide Fatal;
  }

  lemma DeliveredKills<C>(s0: State<C>, s: State<C>, e: nat)
    requires e < 2 && s.env.results.Get(e) != [] && Drained(s0, s, e)
    ensures Drained(s0, Delivered(s, e), e)
  {
    DeliveredEngine(s, e);
    hide Delivered, Fatal;
    KillsMore(s0, s, Delivered(s, e), e, s.env.results.Get(e)[0]);
    hide FatalsKill;
  }

  /** A reply is passed on exactly when a job of its name is active, and a fatal
      one takes the engine, and only it, out of service. */
  lemma DeliveredEngine<C>(s: State<C>, e: nat)
    requires e < 2 && s.env.results.Get(e) != []
    ensures var now, reply := Delivered(s, e), s.env.results.Get(e)[0];
            && Replied(s, now) && now.pending == s.pending && now.eof == s.eof && now.lost == s.lost
            && (s.stop ==> now.stop)
            && OtherSame(s, now, e)
            && now.env == s.env.(results := s.env.results.Set(e, s.env.results.Get(e)[1..]))
            && if reply.id in s.active.Get(e) then
                 && now.attempted == s.attempted + [reply]
                 && (now.dead.Get(e) <==> s.dead.Get(e) || Fatal(reply))
                 && (now.open.Get(e) <==> s.open.Get(e) && !Fatal(reply))
               else
                 && now.attempted == s.attempted && now.active == s.active && now.dead == s.dead && now.open == s.open
  {
    hide Delivered, Send, Replied, OtherSame, Fatal;
    if s.env.results.Get(e)[0].id in s.active.Get(e) {
      DeliveredHit(s, e);
    } else {
      DeliveredMiss(s, e);
    }
  }

  lemma DeliveredMiss<C>(s: State<C>, e: nat)
    requires e < 2 && s.env.results.Get(e) != [] && s.env.results.Get(e)[0].id !in s.active.Get(e)
    ensures Delivered(s, e) == s.(env := s.env.(results := s.env.results.Set(e, s.env.results.Get(e)[1..])))
    ensures Replied(s, Delivered(s, e)) && OtherSame(s, Delivered(s, e), e)
  {
  }

  lemma DeliveredHit<C>(s: State<C>, e: nat)
    requires e < 2 && s.env.results.Get(e) != [] && s.env.results.Get(e)[0].id in s.active.Get(e)
    ensures var now, reply := Delivered(s, e), s.env.results.Get(e)[0];
            && Replied(s, now) && OtherSame(s, now, e)
            && now == s.(env := s.env.(results := s.env.results.Set(e, s.env.results.Get(e)[1..])), active := now.active,
                         dead := now.dead, open := now.open, stop := now.stop, attempted := s.attempted + [reply])
            && (s.stop ==> now.stop)
            && (now.dead.Get(e) <==> s.dead.Get(e) || Fatal(reply))
            && (now.open.Get(e) <==> s.open.Get(e) && !Fatal(reply))
  {
    hide SwapRemove, Position;
  }

  lemma ForwardedOther<C>(s: State<C>, w: Setup, q: Queued<C>, e: nat, o: nat)
    requires e < 2 && o == 1 - e
    ensures var r := Forwarded(s, w, q, e);
            r.dead.Get(o) == s.dead.Get(o) && r.sent.Get(o) == s.sent.Get(o) && r.active.Get(o) == s.active.Get(o)
  {
  }

  /** An engine out of service gets no further job. */
  lemma DeadGetsNothing<C>(s: State<C>, w: Setup, judge: (Job, C) -> Both<bool>, e: nat)
    requires s.pending != [] && e < 2 && s.dead.Get(e)
    ensures var r := Routed(s, w, judge);
            r.dead.Get(e) && r.sent.Get(e) == s.sent.Get(e) && r.active.Get(e) == s.active.Get(e)
  {
    var q := s.pending[0];
    var eligible := Judged(q, s.env.cfg, judge);
    Decides(s, w, q.job, eligible);
    if Decide(s, w, q.job, eligible) == Forward(1 - e) {
      ForwardedOther(s.(pending := s.pending[1..]), w, Queued(q.job, Some((s.env.cfg, eligible))), 1 - e, e);
    }
    hide Decide, Judged, Forwarded;
  }

  /** Answers every job of an engine that is gone, until the output closes. */
  method Retire<C>(s0: State<C>, ghost w: Setup, e: nat, script: seq<seq<Move<C>>>, tick0: nat)
    returns (s: State<C>, tick: nat)
    requires Inv(s0, w) && e < 2 && s0.env.gone.Get(e) && s0.env.results.Get(e) == [] && tick0 <= |script|
    ensures Inv(s, w) && tick0 <= tick <= |script| && s.active.Get(e) == [] && s.dead.Get(e)
    ensures s.env.gone.Get(e) && s.env.results.Get(e) == []
    ensures s.pending == s0.pending && s.eof == s0.eof && (s0.stop ==> s.stop)
    ensures s0.lost == [] && !s.stop ==> s.lost == []
    ensures Replied(s0, s) && OtherSame(s0, s, e)
    ensures s.open == s0.open && Stopped(s0, s)
    ensures (s, tick) == RetireOf(s0.(dead := s0.dead.Set(e, true)), e, script, tick0)
  {
    s, tick := s0.(dead := s0.dead.Set(e, true)), tick0;
    DeadKeeps(s0, w, e);
    ghost var begun := s;
    assert Retired(begun, s, e);
    hide Inv, MovedAll, Retired, Replied, OtherSame, Stopped;
    while s.active.Get(e) != []
      invariant Inv(s, w) && tick0 <= tick <= |script| && Retired(begun, s, e)
      invariant s.env.gone.Get(e) && s.env.results.Get(e) == []
      invariant RetireOf(s, e, script, tick) == RetireOf(begun, e, script, tick0)
      decreases |s.active.Get(e)|
    {
      if tick < |script| {
        GoneStays(s.env, script[tick], e);
      }
      var a;
      a, tick := Act(s, w, script, tick);
      OrphanedKeeps(a, w, e);
      OrphanedEngine(a, e);
      RetiredStep(begun, s, a.env, e);
      hide Orphaned;
      s := Orphaned(a, e);
    }
    RetiredMeans(s0, begun, s, e);
  }

  /** What answering for a gone engine may have done. */
  predicate Retired<C>(s: State<C>, r: State<C>, e: nat)
    requires e < 2
  {
    && Replied(s, r) && OtherSame(s, r, e) && Stopped(s, r) && r.open == s.open && r.dead == s.dead
    && r.pending == s.pending && r.eof == s.eof && (s.stop ==> r.stop) && (s.lost == [] && !r.stop ==> r.lost == [])
  }

  lemma RetiredStep<C>(s0: State<C>, s: State<C>, v: Env<C>, e: nat)
    requires e < 2 && Retired(s0, s, e) && s.active.Get(e) != []
    ensures Retired(s0, Orphaned(s.(env := v), e), e)
  {
    OrphanedEngine(s.(env := v), e);
    hide Orphaned;
  }

  lemma RetiredMeans<C>(s0: State<C>, begun: State<C>, s: State<C>, e: nat)
    requires e < 2 && begun == s0.(dead := s0.dead.Set(e, true)) && Retired(begun, s, e)
    ensures s.dead.Get(e) && Replied(s0, s) && OtherSame(s0, s, e) && Stopped(s0, s) && s.open == s0.open
    ensures s.pending == s0.pending && s.eof == s0.eof && (s0.stop ==> s.stop)
    ensures s0.lost == [] && !s.stop ==> s.lost == []
  {
  }

  /** Takes every reply an engine has ready. */
  method Drain<C>(s0: State<C>, ghost w: Setup, e: nat, script: seq<seq<Move<C>>>, tick0: nat)
    returns (s: State<C>, tick: nat)
    requires Inv(s0, w) && e < 2 && tick0 <= |script|
    ensures Inv(s, w) && tick0 <= tick <= |script| && Drained(s0, s, e)
    ensures s.env.results.Get(e) == [] || s.env.outClosed
    ensures s.env.gone.Get(e) ==> s.env.outClosed || (s.active.Get(e) == [] && s.dead.Get(e))
    ensures (s, tick) == DrainOf(s0, e, script, tick0)
  {
    s, tick := s0, tick0;
    DrainedNone(s0, e);
    hide Inv, MovedAll, Drained, Delivered, OtherSame, Replied, Stopped;
    while true
      invariant Inv(s, w) && tick0 <= tick <= |script| && Drained(s0, s, e)
      invariant DrainOf(s, e, script, tick) == DrainOf(s0, e, script, tick0)
      decreases |script| - tick, |s.env.results.Get(e)|
    {
      var r;
      r, tick := Act(s, w, script, tick);
      DrainedAct(s0, s, r.env, e);
      s := r;
      var replies := s.env.results.Get(e);
      if replies != [] {
        var waited := replies[0].id in s.active.Get(e);
        DeliveredKeeps(s, w, e);
        DeliveredEngine(s, e);
        DeliveredKills(s0, s, e);
        s := Delivered(s, e);
        if waited && s.env.outClosed {
          break;
        }
      } else if s.env.gone.Get(e) {
        var retired;
        retired, tick := Retire(s, w, e, script, tick);
        StoppedKills(s0, s, retired, e);
        s := retired;
        break;
      } else {
        break;
      }
    }
  }

  predicate AllJudged<C(==)>(pending: seq<Queued<C>>) {
    forall i :: 0 <= i < |pending| ==> pending[i].eligibility.Some?
  }

  /** Routing takes the front job; what it puts back goes to the end, judged. */
  lemma RoutedRotates<C>(s: State<C>, w: Setup, judge: (Job, C) -> Both<bool>, k: nat)
    requires s.pending != [] && 0 < k <= |s.pending| && AllJudged(s.pending[k..])
    ensures |Routed(s, w, judge).pending| >= k - 1 && AllJudged(Routed(s, w, judge).pending[k - 1..])
  {
    hide Decide;
    var known := Queued(s.pending[0].job, Some((s.env.cfg, Judged(s.pending[0], s.env.cfg, judge))));
    assert s.pending[1..][k - 1..] == s.pending[k..];
    assert (s.pending[1..] + [known])[k - 1..] == s.pending[k..] + [known];
  }

  lemma RoutedLeaves<C>(s: State<C>, w: Setup, judge: (Job, C) -> Both<bool>)
    requires s.pending != []
    ensures Routed(s, w, judge).eof == s.eof && Routed(s, w, judge).lost == s.lost
  {
    hide Decide;
  }

  /** One pass over the jobs now pending. */
  method Route<C(==)>(s0: State<C>, w: Setup, judge: (Job, C) -> Both<bool>, script: seq<seq<Move<C>>>, tick0: nat)
    returns (s: State<C>, tick: nat)
    requires Inv(s0, w) && Remembered(s0.pending, judge) && tick0 <= |script|
    ensures Inv(s, w) && Remembered(s.pending, judge) && tick0 <= tick <= |script|
    ensures s.eof == s0.eof && s.lost == s0.lost
    ensures s.env.outClosed || AllJudged(s.pending)
    ensures (s, tick) == RouteOf(s0, w, judge, script, tick0, |s0.pending|)
  {
    s, tick := s0, tick0;
    hide Inv, MovedAll, Remembered;
    for i := 0 to |s0.pending|
      invariant Inv(s, w) && Remembered(s.pending, judge) && tick0 <= tick <= |script|
      invariant s.eof == s0.eof && s.lost == s0.lost
      invariant |s.pending| >= |s0.pending| - i && AllJudged(s.pending[|s0.pending| - i..])
      invariant RouteOf(s, w, judge, script, tick, |s0.pending| - i) == RouteOf(s0, w, judge, script, tick0, |s0.pending|)
    {
      s, tick := Act(s, w, script, tick);
      if s.pending == [] {
        break;
      }
      RoutedKeeps(s, w, judge);
      JudgedFresh(s, w, judge);
      RoutedRotates(s, w, judge, |s0.pending| - i);
      RoutedLeaves(s, w, judge);
      hide Routed, AllJudged;
      var before := |s.direct|;
      s := Routed(s, w, judge);
      if |s.direct| > before && s.env.outClosed {
        break;
      }
    }
  }

  datatype End = Running | OutputClosed | InputDone

  function Initial<C(==)>(w: Setup, cfg: C): State<C> {
    State(Env([], false, false, 0, cfg, Both([], []), Both([], []), Both([], []), Both(false, false),
              Both(w.Limit(0), w.Limit(1)), Both([], []), false),
          [], Both([], []), Both(false, false), Both(true, true), false, false,
          [], Both([], []), [], [], [], None)
  }

  /** The router starts with both engines in service and their channels open and
      empty, and nothing taken, pending or answered. */
  lemma StartsEmpty<C>(w: Setup, cfg: C)
    ensures var s := Initial(w, cfg);
            && (forall e :: 0 <= e < 2 ==> s.open.Get(e) && !s.dead.Get(e) && !s.env.gone.Get(e) && s.env.chan.Get(e) == [])
            && (forall e :: 0 <= e < 2 ==> s.active.Get(e) == [] && s.env.room.Get(e) == w.Limit(e) && s.env.results.Get(e) == [])
            && s.pending == [] && !s.eof && !s.stop && !s.env.inputClosed && !s.env.outClosed && !s.env.early
            && s.accepted == [] && s.direct == [] && s.attempted == [] && s.lost == [] && s.full.None? && s.env.cfg == cfg
  {
  }

  lemma InitialInv<C>(w: Setup, cfg: C)
    ensures Inv(Initial(w, cfg), w)
  {
    forall id: Id
      ensures ConservedAt(Initial(w, cfg), id)
    {
    }
    assert ReplyIds([]) == [];
    forall id: Id
      ensures PipeAt([], [], [], [], id) && NotEarly([], [], id)
    {
    }
  }

  lemma AcceptedRemembers<C>(s: State<C>, w: Setup, judge: (Job, C) -> Both<bool>)
    requires Remembered(s.pending, judge)
    ensures Remembered(Accepted(s, w).pending, judge) && Accepted(s, w).lost == s.lost
  {
  }

  /** On a clean end nothing is outstanding, so the answers are the accepted
      jobs, each exactly once. */
  lemma CleanEnd<C>(s: State<C>, w: Setup)
    requires Inv(s, w) && s.pending == [] && s.active == Both([], []) && s.lost == []
    ensures multiset(ReplyIds(s.attempted)) == multiset(s.accepted)
  {
    forall id: Id
      ensures multiset(ReplyIds(s.attempted))[id] == multiset(s.accepted)[id]
    {
      assert ConservedAt(s, id);
      assert Ids(s.pending) == [];
    }
  }

  lemma ClosedSenders<C>(s: State<C>, w: Setup)
    requires Inv(s, w)
    ensures Inv(s.(open := Both(false, false)), w)
  {
    OnlyEnv(s, s.env);
    var now := s.(open := Both(false, false));
    assert forall id: Id :: ConservedAt(s, id) ==> ConservedAt(now, id);
    SamePipes(s, now, w);
    FullStays(s, now, w);
    hide ConservedAt, Pipes, FullOk;
  }

  lemma StopKeeps<C>(s: State<C>, w: Setup)
    requires Inv(s, w)
    ensures Inv(s.(stop := true), w)
  {
    var now := s.(stop := true);
    assert forall id: Id :: ConservedAt(s, id) ==> ConservedAt(now, id);
    SamePipes(s, now, w);
    FullStays(s, now, w);
    hide ConservedAt, Pipes, FullOk;
  }

  /** The router's loop, over any environment: every state it passes through
      keeps the books; with distinct jobs no engine channel is ever found full;
      and at a clean end the answers are exactly the accepted jobs. */
  method Run<C(==)>(w: Setup, judge: (Job, C) -> Both<bool>, cfg: C, script: seq<seq<Move<C>>>)
    returns (s: State<C>, end: End, tick: nat)
    ensures Inv(s, w)
    ensures end == Running ==> tick == |script|
    ensures Distinct(s.accepted) || !s.env.early ==> s.full.None?
    ensures (s, end, tick) == RunOf(w, judge, cfg, script)
    ensures end == InputDone ==> s.eof && s.pending == [] && s.active == Both([], [])
    ensures end == InputDone ==> multiset(ReplyIds(s.attempted)) == multiset(s.accepted)
    ensures end != Running ==> s.stop && s.open == Both(false, false)
  {
    s, end, tick := Initial(w, cfg), Running, 0;
    InitialInv(w, cfg);
    assert Remembered(s.pending, judge);
    hide Inv, MovedAll, Remembered, Distinct, ActOf, DrainOf, RouteOf, Initial, Accepted;
    while tick < |script|
      invariant Inv(s, w) && Remembered(s.pending, judge) && tick <= |script| && s.lost == [] && end == Running
      invariant LoopOf(s, w, judge, script, tick) == LoopOf(Initial(w, cfg), w, judge, script, 0)
      decreases |script| - tick
    {
      s, tick := Act(s, w, script, tick);
      if s.env.outClosed {
        end := OutputClosed;
        break;
      }
      s, tick := Drain(s, w, 0, script, tick);
      s, tick := Drain(s, w, 1, script, tick);
      if s.stop {
        end := OutputClosed;
        break;
      }
      s, tick := Act(s, w, script, tick);
      AcceptedKeeps(s, w);
      AcceptedRemembers(s, w, judge);
      s := Accepted(s, w);
      s, tick := Route(s, w, judge, script, tick);
      if s.eof && s.pending == [] {
        ClosedSenders(s, w);
        s := s.(open := Both(false, false));
        if s.active.metal == [] && s.active.ane == [] {
          CleanEnd(s, w);
          end := InputDone;
          break;
        }
      }
    }
    if end != Running {
      StopKeeps(s, w);
      ClosedSenders(s.(stop := true), w);
      s := s.(stop := true, open := Both(false, false));
    }
    FullOnlyOnDuplicates(s, w);
  }

  /** With distinct names no channel is ever found full. */
  lemma FullOnlyOnDuplicates<C>(s: State<C>, w: Setup)
    requires Inv(s, w)
    ensures Distinct(s.accepted) ==> s.full.None?
  {
    if Distinct(s.accepted) && s.full.Some? {
      var f := s.full.value;
      var i, j :| 0 <= i < |f.sent| - w.Limit(f.e) <= j < |f.sent| && f.sent[i] == f.sent[j];
      DistinctOnce(s.accepted, f.sent[i]);
      assert AtMost(f.sent + [f.id], s.accepted, f.sent[i]);
      CountAppend(f.sent, f.id, f.sent[i]);
      Twice(f.sent, i, j);
      assert false;
    }
  }

  lemma Twice(s: seq<Id>, i: nat, j: nat)
    requires i < j < |s| && s[i] == s[j]
    ensures Count(s, s[i]) >= 2
  {
    assert s == s[..j] + [s[j]] + s[j + 1..];
    assert s[..j][i] == s[i];
  }
}
