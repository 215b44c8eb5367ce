/**
 * When the router (src/combined.rs) finds an engine's channel full. Its credits
 * keep an engine's active list below the limit, but an engine that answers one
 * job of a shared name twice frees the place of another job of that name, which
 * may still wait in the channel. The condition is exact: some run finds the
 * channel full right after sending given names exactly when one of the last
 * `limit` of them was sent before them as well.
 */
module FullChannels {
  import opened Counts
  import opened Routing
  import opened Wrappers

  /** Every job is for engine `e`. */
  function Only(e: nat): (Job, int) -> Both<bool> {
    (job: Job, cfg: int) => Both(e == 0, e != 0)
  }

  /** The router between two rounds of its loop, with `input` still to be taken:
      engine `e` took `taken`, its channel holds `chan`, the names in `active` wait
      for an answer, and nothing else is going on. */
  predicate Resting(s: State<int>, w: Setup, e: nat, taken: seq<Id>, chan: seq<Id>, active: seq<Id>, input: seq<Job>)
    requires e < 2
  {
    && s.env.input == input && !s.env.inputClosed && !s.env.outClosed && s.env.level == 0
    && s.env.chan.Get(e) == chan && s.env.taken.Get(e) == taken
    && s.env.results == Both([], []) && s.env.gone == Both(false, false)
    && s.env.room == Both(w.Limit(0), w.Limit(1))
    && s.pending == [] && s.active.Get(e) == active && s.active.Get(1 - e) == []
    && s.dead == Both(false, false) && s.open == Both(true, true) && !s.eof && !s.stop
    && s.sent.Get(e) == taken + chan && s.accepted == taken + chan && s.full.None?
  }

  predicate Idle(s: State<int>, w: Setup, e: nat, taken: seq<Id>, chan: seq<Id>, active: seq<Id>)
    requires e < 2
  {
    Resting(s, w, e, taken, chan, active, [])
  }

  // One round of the loop.

  /** Nothing happens for `n` ticks. */
  predicate Quiet(script: seq<seq<Move<int>>>, tick: nat, n: nat) {
    tick + n <= |script| && forall k :: tick <= k < tick + n ==> script[k] == []
  }

  lemma QuietPart(script: seq<seq<Move<int>>>, tick: nat, n: nat, at: nat, k: nat)
    requires Quiet(script, tick, n) && tick <= at && at + k <= tick + n
    ensures Quiet(script, at, k) && at + k <= |script|
  {
  }

  lemma QuietAct(s: State<int>, script: seq<seq<Move<int>>>, tick: nat)
    requires Quiet(script, tick, 1)
    ensures ActOf(s, script, tick) == (s, tick + 1)
  {
  }

  lemma QuietDrain(s: State<int>, e: nat, script: seq<seq<Move<int>>>, tick: nat)
    requires e < 2 && Quiet(script, tick, 1) && s.env.results.Get(e) == [] && !s.env.gone.Get(e)
    ensures DrainOf(s, e, script, tick) == (s, tick + 1)
  {
    QuietAct(s, script, tick);
  }

  lemma OneReplyDrain(s: State<int>, e: nat, script: seq<seq<Move<int>>>, tick: nat)
    requires e < 2 && Quiet(script, tick, 2) && |s.env.results.Get(e)| == 1 && !s.env.gone.Get(e) && !s.env.outClosed
    ensures DrainOf(s, e, script, tick) == (Delivered(s, e), tick + 2)
  {
    QuietAct(s, script, tick);
    DeliveredEngine(s, e);
    hide Delivered;
    QuietDrain(Delivered(s, e), e, script, tick + 1);
  }

  lemma OneRoute(s: State<int>, w: Setup, judge: (Job, int) -> Both<bool>, script: seq<seq<Move<int>>>, tick: nat)
    requires Quiet(script, tick, 1) && s.pending != [] && !s.env.outClosed
    ensures RouteOf(s, w, judge, script, tick, 1) == (Routed(s, w, judge), tick + 1)
  {
    QuietAct(s, script, tick);
    RoutedOut(s, w, judge);
    hide Routed;
    assert RouteOf(Routed(s, w, judge), w, judge, script, tick + 1, 0) == (Routed(s, w, judge), tick + 1);
  }

  lemma RoutedOut(s: State<int>, w: Setup, judge: (Job, int) -> Both<bool>)
    requires s.pending != []
    ensures Routed(s, w, judge).env.outClosed == s.env.outClosed && Routed(s, w, judge).eof == s.eof
  {
    hide Decide;
  }

  /** How many replies a state has waiting. */
  function Waiting(s: State<int>, e: nat): nat
    requires e < 2
  {
    |s.env.results.Get(e)|
  }

  /** The state once engine `e`'s reply, if it has one, was delivered. */
  function Drained1(s: State<int>, e: nat): State<int>
    requires e < 2
  {
    if Waiting(s, e) == 0 then s else Delivered(s, e)
  }

  lemma DrainBoth(s: State<int>, e: nat, script: seq<seq<Move<int>>>, tick: nat)
    requires e < 2 && Waiting(s, e) <= 1 && Waiting(s, 1 - e) == 0 && s.env.gone == Both(false, false) && !s.env.outClosed
    requires Quiet(script, tick, 2 + Waiting(s, e))
    ensures var (b, t2) := DrainOf(s, 0, script, tick); DrainOf(b, 1, script, t2) == (Drained1(s, e), tick + 2 + Waiting(s, e))
  {
    hide Delivered, Replied, OtherSame, Fatal, DrainOf;
    var r := Drained1(s, e);
    if Waiting(s, e) == 1 {
      DeliveredEngine(s, e);
    }
    assert Quiet(script, tick, 1) && Quiet(script, tick + 1, 1);
    if e == 0 {
      if Waiting(s, 0) == 1 {
        OneReplyDrain(s, 0, script, tick);
      } else {
        QuietDrain(s, 0, script, tick);
      }
      QuietDrain(r, 1, script, tick + 1 + Waiting(s, 0));
    } else {
      QuietDrain(s, 0, script, tick);
      if Waiting(s, 1) == 1 {
        OneReplyDrain(s, 1, script, tick + 1);
      } else {
        QuietDrain(s, 1, script, tick + 1);
      }
    }
  }

  /** The moves of a round come first; then engine `e`'s reply, if there is one, is
      delivered, and the one job of the input is accepted and routed. */
  lemma Round(s: State<int>, w: Setup, judge: (Job, int) -> Both<bool>, e: nat, script: seq<seq<Move<int>>>, tick: nat,
              a: State<int>, d: State<int>)
    requires e < 2 && tick < |script| && ActOf(s, script, tick) == (a, tick + 1) && d == Drained1(a, e)
    requires Waiting(a, e) <= 1 && Waiting(a, 1 - e) == 0 && a.env.gone == Both(false, false) && !a.env.outClosed
    requires Quiet(script, tick + 1, 4 + Waiting(a, e)) && !d.stop
    requires |Accepted(d, w).pending| == 1 && !Accepted(d, w).eof && !Accepted(d, w).env.outClosed
    ensures tick + 5 + Waiting(a, e) <= |script|
    ensures LoopOf(s, w, judge, script, tick)
         == LoopOf(Routed(Accepted(d, w), w, judge), w, judge, script, tick + 5 + Waiting(a, e))
  {
    hide *;
    var n := Waiting(a, e);
    QuietPart(script, tick + 1, 4 + n, tick + 1, 2 + n);
    QuietPart(script, tick + 1, 4 + n, tick + 3 + n, 2);
    DrainBoth(a, e, script, tick + 1);
    var b := DrainOf(a, 0, script, tick + 1);
    AcceptAndRoute(d, w, judge, script, tick + 3 + n);
    LoopStep(s, w, judge, script, tick, a, tick + 1, b.0, b.1, d, tick + 3 + n, d, tick + 4 + n,
             Routed(Accepted(d, w), w, judge), tick + 5 + n);
  }

  /** A round of the loop that neither stops nor meets the end of the input. */
  lemma LoopStep(s: State<int>, w: Setup, judge: (Job, int) -> Both<bool>, script: seq<seq<Move<int>>>, tick: nat,
                 a: State<int>, t1: nat, b: State<int>, t2: nat, c: State<int>, t3: nat, d: State<int>, t4: nat,
                 g: State<int>, t5: nat)
    requires tick < |script| && ActOf(s, script, tick) == (a, t1) && DrainOf(a, 0, script, t1) == (b, t2)
    requires DrainOf(b, 1, script, t2) == (c, t3) && ActOf(c, script, t3) == (d, t4)
    requires RouteOf(Accepted(d, w), w, judge, script, t4, |Accepted(d, w).pending|) == (g, t5)
    requires !a.env.outClosed && !c.stop && !g.eof && t5 <= |script|
    ensures LoopOf(s, w, judge, script, tick) == LoopOf(g, w, judge, script, t5)
  {
    hide ActOf, DrainOf, RouteOf, Accepted;
  }

  lemma AcceptAndRoute(d: State<int>, w: Setup, judge: (Job, int) -> Both<bool>, script: seq<seq<Move<int>>>, tick: nat)
    requires Quiet(script, tick, 2)
    requires var f := Accepted(d, w); |f.pending| == 1 && !f.eof && !f.env.outClosed
    ensures ActOf(d, script, tick) == (d, tick + 1)
    ensures RouteOf(Accepted(d, w), w, judge, script, tick + 1, 1) == (Routed(Accepted(d, w), w, judge), tick + 2)
    ensures !Routed(Accepted(d, w), w, judge).eof
  {
    assert Quiet(script, tick, 1) && Quiet(script, tick + 1, 1);
    QuietAct(d, script, tick);
    hide Accepted, Routed, RouteOf;
    OneRoute(Accepted(d, w), w, judge, script, tick + 1);
    RoutedOut(Accepted(d, w), w, judge);
  }

  // What a round does.

  function Fresh(id: Id): Job {
    Job(id, 0)
  }

  /** The one job of the input accepted and routed: sent while the channel has
      room, and otherwise the channel found full. */
  lemma Served(s: State<int>, w: Setup, e: nat, taken: seq<Id>, chan: seq<Id>, active: seq<Id>, x: Id)
    requires e < 2 && Resting(s, w, e, taken, chan, active, [Fresh(x)]) && |active| < w.Limit(e)
    ensures |Accepted(s, w).pending| == 1 && !Accepted(s, w).eof && !Accepted(s, w).env.outClosed
    ensures var r := Routed(Accepted(s, w), w, Only(e));
            && r.accepted == taken + chan + [x]
            && if |chan| < w.Limit(e) then Idle(r, w, e, taken, chan + [x], active + [x])
               else r.full == Some(Found(e, taken + chan, x))
  {
    assert [Fresh(x)][1..] == [];
    assert taken + (chan + [x]) == taken + chan + [x];
    var f := Accepted(s, w);
    var q := f.pending[0];
    assert f.pending == [Queued(Fresh(x), None)] && f.pending[1..] == [];
    assert Decide(f, w, q.job, Judged(q, f.env.cfg, Only(e))) == Forward(e);
    hide Decide;
  }

  lemma MovedLast(v: Env<int>, moves: seq<Move<int>>, m: Move<int>)
    ensures MovedAll(v, moves + [m]) == Moved(MovedAll(v, moves), m)
  {
    assert (moves + [m])[..|moves|] == moves;
  }

  /** A round that only offers a job. */
  function SendBlock(x: Id): (block: seq<seq<Move<int>>>)
    ensures |block| == 5
  {
    [[Offer(Fresh(x))], [], [], [], []]
  }

  /** A round before which the engine takes a job, answers `y`, and a job is offered. */
  function ServeBlock(e: nat, y: Id, x: Id): (block: seq<seq<Move<int>>>)
    ensures |block| == 6
  {
    [[Take(e), Move.Answer(e, Reply(y, Completed)), Offer(Fresh(x))], [], [], [], [], []]
  }

  /** A round before which the engine answers `z` and a job is offered. */
  function RepeatBlock(e: nat, z: Id, x: Id): (block: seq<seq<Move<int>>>)
    ensures |block| == 6
  {
    [[Move.Answer(e, Reply(z, Completed)), Offer(Fresh(x))], [], [], [], [], []]
  }

  predicate BlockAt(script: seq<seq<Move<int>>>, tick: nat, block: seq<seq<Move<int>>>) {
    tick + |block| <= |script| && script[tick..tick + |block|] == block
  }

  lemma BlockQuiet(script: seq<seq<Move<int>>>, tick: nat, block: seq<seq<Move<int>>>)
    requires BlockAt(script, tick, block) && block != [] && forall k :: 1 <= k < |block| ==> block[k] == []
    ensures script[tick] == block[0] && Quiet(script, tick + 1, |block| - 1)
  {
    forall k | tick <= k < tick + |block|
      ensures script[k] == block[k - tick]
    {
      assert script[tick..tick + |block|][k - tick] == script[k];
    }
  }

  lemma Sent(s: State<int>, w: Setup, e: nat, taken: seq<Id>, chan: seq<Id>, active: seq<Id>, x: Id,
             script: seq<seq<Move<int>>>, tick: nat)
    returns (r: State<int>)
    requires e < 2 && Idle(s, w, e, taken, chan, active) && |active| < w.Limit(e) && |chan| < w.Limit(e)
    requires BlockAt(script, tick, SendBlock(x))
    ensures Idle(r, w, e, taken, chan + [x], active + [x]) && tick + 5 <= |script|
    ensures LoopOf(s, w, Only(e), script, tick) == LoopOf(r, w, Only(e), script, tick + 5)
  {
    BlockQuiet(script, tick, SendBlock(x));
    var v := s.env.(input := [Fresh(x)]);
    MovedLast(s.env, [], Offer(Fresh(x)));
    assert [] + [Offer(Fresh(x))] == script[tick] && [] + [Fresh(x)] == [Fresh(x)];
    var a := s.(env := v);
    assert Resting(a, w, e, taken, chan, active, [Fresh(x)]);
    Served(a, w, e, taken, chan, active, x);
    r := Routed(Accepted(a, w), w, Only(e));
    assert ActOf(s, script, tick) == (a, tick + 1);
    hide Routed, Accepted, LoopOf, ActOf;
    Round(s, w, Only(e), e, script, tick, a, a);
  }

  /** A reply to an active name makes room for one more. */
  lemma Answered(s: State<int>, w: Setup, e: nat, taken: seq<Id>, chan: seq<Id>, active: seq<Id>, input: seq<Job>, y: Id)
    requires e < 2 && y in active && s.env.results.Get(e) == [Reply(y, Completed)] && s.env.results.Get(1 - e) == []
    requires Resting(s.(env := s.env.(results := Both([], []))), w, e, taken, chan, active, input)
    ensures Resting(Delivered(s, e), w, e, taken, chan, SwapRemove(active, Position(active, y)), input)
  {
    DeliveredEngine(s, e);
    assert [Reply(y, Completed)][1..] == [];
    assert s.env.results.Set(e, []) == Both([], []);
  }

  lemma TakeOnce(v: Env<int>, e: nat, y: Id)
    requires e < 2 && v.chan.Get(e) == [y] && !v.gone.Get(e)
    ensures Moved(v, Take(e)) == v.(chan := v.chan.Set(e, []), taken := v.taken.Set(e, v.taken.Get(e) + [y]))
  {
    assert [y][1..] == [];
  }

  lemma AnswerOnce(v: Env<int>, e: nat, r: Reply)
    requires e < 2 && !v.gone.Get(e) && r.id in v.taken.Get(e) && v.results == Both([], []) && v.room.Get(e) > 0
    ensures var u := Moved(v, Move.Answer(e, r));
            && u == v.(results := u.results, given := u.given, early := u.early)
            && u.results.Get(e) == [r] && u.results.Get(1 - e) == []
  {
    hide Count;
    assert [] + [r] == [r];
  }

  lemma OfferOnce(v: Env<int>, job: Job)
    requires v.input == [] && !v.inputClosed
    ensures Moved(v, Offer(job)) == v.(input := [job])
  {
    assert [] + [job] == [job];
  }

  lemma ServeMoves(v: Env<int>, e: nat, y: Id, x: Id)
    ensures MovedAll(v, ServeBlock(e, y, x)[0])
         == Moved(Moved(Moved(v, Take(e)), Move.Answer(e, Reply(y, Completed))), Offer(Fresh(x)))
  {
    hide Moved;
    var take: Move<int>, answer: Move<int> := Take(e), Move.Answer(e, Reply(y, Completed));
    MovedLast(v, [], take);
    MovedLast(v, [take], answer);
    MovedLast(v, [take, answer], Offer(Fresh(x)));
    assert [] + [take] == [take] && [take] + [answer] == [take, answer];
    assert [take, answer] + [Offer(Fresh(x))] == ServeBlock(e, y, x)[0];
  }

  /** The environment after the moves of a serving round. */
  lemma ServeEnv(s: State<int>, w: Setup, e: nat, taken: seq<Id>, y: Id, x: Id) returns (v: Env<int>)
    requires e < 2 && Idle(s, w, e, taken, [y], [y])
    ensures v == MovedAll(s.env, ServeBlock(e, y, x)[0])
    ensures v.results.Get(e) == [Reply(y, Completed)] && v.results.Get(1 - e) == []
    ensures Resting(s.(env := v.(results := Both([], []))), w, e, taken + [y], [], [y], [Fresh(x)])
  {
    hide Moved, MovedAll, ServeBlock;
    ServeMoves(s.env, e, y, x);
    TakeOnce(s.env, e, y);
    var v1 := Moved(s.env, Take(e));
    var answer: Move<int> := Move.Answer(e, Reply(y, Completed));
    AnswerOnce(v1, e, Reply(y, Completed));
    var v2 := Moved(v1, answer);
    OfferOnce(v2, Fresh(x));
    v := Moved(v2, Offer(Fresh(x)));
    assert taken + [y] == (taken + [y]) + [];
  }

  lemma RepeatEnv(s: State<int>, w: Setup, e: nat, taken: seq<Id>, chan: seq<Id>, z: Id, x: Id) returns (v: Env<int>)
    requires e < 2 && Idle(s, w, e, taken, chan, chan) && z in taken
    ensures v == MovedAll(s.env, RepeatBlock(e, z, x)[0])
    ensures v.results.Get(e) == [Reply(z, Completed)] && v.results.Get(1 - e) == []
    ensures Resting(s.(env := v.(results := Both([], []))), w, e, taken, chan, chan, [Fresh(x)])
  {
    var answer: Move<int> := Move.Answer(e, Reply(z, Completed));
    v := Moved(s.env, answer).(input := [Fresh(x)]);
    MovedLast(s.env, [], answer);
    MovedLast(s.env, [answer], Offer(Fresh(x)));
    assert [] + [answer] == [answer] && [answer] + [Offer(Fresh(x))] == RepeatBlock(e, z, x)[0];
    assert [] + [Fresh(x)] == [Fresh(x)];
    hide MovedAll;
  }

  /** A round whose moves leave one reply to an active name and one job. */
  lemma ReplyRound(s: State<int>, w: Setup, e: nat, taken: seq<Id>, chan: seq<Id>, active: seq<Id>, y: Id, x: Id,
                   script: seq<seq<Move<int>>>, tick: nat, v: Env<int>)
    returns (r: State<int>)
    requires e < 2 && y in active && |active| <= w.Limit(e)
    requires v.results.Get(e) == [Reply(y, Completed)] && v.results.Get(1 - e) == []
    requires Resting(s.(env := v.(results := Both([], []))), w, e, taken, chan, active, [Fresh(x)])
    requires Quiet(script, tick + 1, 5) && v == MovedAll(s.env, script[tick])
    ensures tick + 6 <= |script| && r.accepted == taken + chan + [x]
    ensures if |chan| < w.Limit(e) then Idle(r, w, e, taken, chan + [x], SwapRemove(active, Position(active, y)) + [x])
            else r.full == Some(Found(e, taken + chan, x))
    ensures LoopOf(s, w, Only(e), script, tick) == LoopOf(r, w, Only(e), script, tick + 6)
  {
    var a := s.(env := v);
    hide LoopOf, MovedAll;
    assert a.(env := a.env.(results := Both([], []))) == s.(env := v.(results := Both([], [])));
    Answered(a, w, e, taken, chan, active, [Fresh(x)], y);
    var less := SwapRemove(active, Position(active, y));
    hide Delivered, SwapRemove, Position;
    Served(Delivered(a, e), w, e, taken, chan, less, x);
    r := Routed(Accepted(Delivered(a, e), w), w, Only(e));
    assert ActOf(s, script, tick) == (a, tick + 1);
    hide Routed, Accepted, MovedAll, LoopOf, ActOf;
    Round(s, w, Only(e), e, script, tick, a, Delivered(a, e));
  }

  lemma ServedNext(s: State<int>, w: Setup, e: nat, taken: seq<Id>, y: Id, x: Id, script: seq<seq<Move<int>>>, tick: nat)
    returns (r: State<int>)
    requires e < 2 && Idle(s, w, e, taken, [y], [y]) && BlockAt(script, tick, ServeBlock(e, y, x))
    ensures Idle(r, w, e, taken + [y], [x], [x]) && tick + 6 <= |script|
    ensures LoopOf(s, w, Only(e), script, tick) == LoopOf(r, w, Only(e), script, tick + 6)
  {
    BlockQuiet(script, tick, ServeBlock(e, y, x));
    var v := ServeEnv(s, w, e, taken, y, x);
    assert SwapRemove([y], Position([y], y)) == [] && [] + [x] == [x];
    hide LoopOf, MovedAll, Idle, Resting;
    r := ReplyRound(s, w, e, taken + [y], [], [y], y, x, script, tick, v);
  }

  /** The engine answers a name it took once more, while another job of that name
      waits in its full channel; the next job finds the channel full. */
  lemma FoundFull(s: State<int>, w: Setup, e: nat, taken: seq<Id>, chan: seq<Id>, z: Id, x: Id,
                  script: seq<seq<Move<int>>>, tick: nat)
    returns (r: State<int>)
    requires e < 2 && Idle(s, w, e, taken, chan, chan) && |chan| == w.Limit(e) && z in taken && z in chan
    requires BlockAt(script, tick, RepeatBlock(e, z, x))
    ensures r.full == Some(Found(e, taken + chan, x)) && r.accepted == taken + chan + [x] && tick + 6 <= |script|
    ensures LoopOf(s, w, Only(e), script, tick) == LoopOf(r, w, Only(e), script, tick + 6)
  {
    BlockQuiet(script, tick, RepeatBlock(e, z, x));
    var v := RepeatEnv(s, w, e, taken, chan, z, x);
    hide LoopOf, MovedAll, Idle, Resting;
    r := ReplyRound(s, w, e, taken, chan, chan, z, x, script, tick, v);
  }

  // The whole run.

  /** The rounds in which the first `k` names are sent; the first `m` of them are
      taken and answered as they come. */
  function Script(e: nat, names: seq<Id>, m: nat, k: nat): seq<seq<Move<int>>>
    requires k <= |names|
  {
    if k == 0 then []
    else Script(e, names, m, k - 1) + BlockOf(e, names, m, k - 1)
  }

  function BlockOf(e: nat, names: seq<Id>, m: nat, k: nat): seq<seq<Move<int>>>
    requires k < |names|
  {
    if 0 < k <= m then ServeBlock(e, names[k - 1], names[k]) else SendBlock(names[k])
  }

  /** How many of the first `k` names sent were taken. */
  function TakenOf(m: nat, k: nat): nat {
    if k == 0 then 0 else Min(k - 1, m)
  }

  predicate SentTo(s: State<int>, w: Setup, e: nat, names: seq<Id>, m: nat, k: nat)
    requires e < 2 && k <= |names|
  {
    var t := TakenOf(m, k);
    Idle(s, w, e, names[..t], names[t..k], names[t..k])
  }

  lemma Snoc(names: seq<Id>, i: nat, k: nat)
    requires i <= k < |names|
    ensures names[i..k] + [names[k]] == names[i..k + 1]
  {
  }

  lemma SentMore(w: Setup, e: nat, names: seq<Id>, m: nat, k: nat, last: State<int>, script: seq<seq<Move<int>>>, tick: nat)
    returns (s: State<int>)
    requires e < 2 && k < |names| == m + w.Limit(e) && 0 < m && SentTo(last, w, e, names, m, k)
    requires BlockAt(script, tick, BlockOf(e, names, m, k))
    ensures SentTo(s, w, e, names, m, k + 1) && tick + |BlockOf(e, names, m, k)| <= |script|
    ensures LoopOf(last, w, Only(e), script, tick)
         == LoopOf(s, w, Only(e), script, tick + |BlockOf(e, names, m, k)|)
  {
    hide LoopOf, Idle;
    if 0 < k <= m {
      Snoc(names, k - 1, k - 1);
      Snoc(names, k, k);
      Snoc(names, 0, k - 1);
      assert names[k - 1..k - 1] == [] && names[k..k] == [];
      assert names[0..k - 1] == names[..k - 1] && names[0..k] == names[..k];
      assert [] + [names[k - 1]] == [names[k - 1]] && [] + [names[k]] == [names[k]];
      s := ServedNext(last, w, e, names[..k - 1], names[k - 1], names[k], script, tick);
    } else {
      var t := TakenOf(m, k);
      Snoc(names, t, k);
      s := Sent(last, w, e, names[..t], names[t..k], names[t..k], names[k], script, tick);
    }
  }

  lemma {:induction false} SentAll(w: Setup, e: nat, names: seq<Id>, m: nat, k: nat, script: seq<seq<Move<int>>>)
    returns (s: State<int>)
    requires e < 2 && k <= |names| == m + w.Limit(e) && 0 < m && Script(e, names, m, k) <= script
    ensures SentTo(s, w, e, names, m, k)
    ensures LoopOf(Initial(w, 0), w, Only(e), script, 0) == LoopOf(s, w, Only(e), script, |Script(e, names, m, k)|)
  {
    if k == 0 {
      s := Initial(w, 0);
    } else {
      var before, block := Script(e, names, m, k - 1), BlockOf(e, names, m, k - 1);
      PrefixBlock(before, block, script);
      hide LoopOf, SentTo, BlockOf, BlockAt, Initial;
      var last := SentAll(w, e, names, m, k - 1, script);
      s := SentMore(w, e, names, m, k - 1, last, script, |before|);
    }
  }

  lemma PrefixBlock(before: seq<seq<Move<int>>>, block: seq<seq<Move<int>>>, script: seq<seq<Move<int>>>)
    requires before + block <= script
    ensures before <= script && BlockAt(script, |before|, block)
  {
    assert script[..|before|] == (before + block)[..|before|];
  }

  /** The engine takes and answers all but the last `Limit(e)` names, and then one
      of those it took, which is also among the last ones, once more. */
  lemma FullRun(w: Setup, e: nat, names: seq<Id>, x: Id, i: nat, j: nat) returns (script: seq<seq<Move<int>>>)
    requires e < 2 && i < |names| - w.Limit(e) <= j < |names| && names[i] == names[j]
    ensures script == Script(e, names, |names| - w.Limit(e), |names|) + RepeatBlock(e, names[i], x)
    ensures var r := RunOf(w, Only(e), 0, script).0;
            r.full == Some(Found(e, names, x)) && r.accepted == names + [x]
  {
    hide *;
    var m, n := |names| - w.Limit(e), |names|;
    var sends := Script(e, names, m, n);
    script := sends + RepeatBlock(e, names[i], x);
    Halves(names, m, i, j);
    var s := SentLast(w, e, names, m, script);
    RunFull(w, e, names[..m], names[m..], names[i], x, sends, s);
  }

  lemma RunFull(w: Setup, e: nat, taken: seq<Id>, chan: seq<Id>, z: Id, x: Id, sends: seq<seq<Move<int>>>, s: State<int>)
    requires e < 2 && Idle(s, w, e, taken, chan, chan) && |chan| == w.Limit(e) && z in taken && z in chan
    requires var script := sends + RepeatBlock(e, z, x);
             LoopOf(Initial(w, 0), w, Only(e), script, 0) == LoopOf(s, w, Only(e), script, |sends|)
    ensures var r := RunOf(w, Only(e), 0, sends + RepeatBlock(e, z, x)).0;
            r.full == Some(Found(e, taken + chan, x)) && r.accepted == taken + chan + [x]
  {
    hide *;
    var script := sends + RepeatBlock(e, z, x);
    PrefixBlock(sends, RepeatBlock(e, z, x), script);
    var r := FoundFull(s, w, e, taken, chan, z, x, script, |sends|);
    LoopEnds(r, w, e, script);
    RunEnds(w, e, script, r);
  }

  lemma SentLast(w: Setup, e: nat, names: seq<Id>, m: nat, script: seq<seq<Move<int>>>) returns (s: State<int>)
    requires e < 2 && |names| == m + w.Limit(e) && 0 < m && Script(e, names, m, |names|) <= script
    ensures Idle(s, w, e, names[..m], names[m..], names[m..])
    ensures LoopOf(Initial(w, 0), w, Only(e), script, 0) == LoopOf(s, w, Only(e), script, |Script(e, names, m, |names|)|)
  {
    hide LoopOf, Idle, Initial, Script;
    s := SentAll(w, e, names, m, |names|, script);
    assert TakenOf(m, |names|) == m && names[m..|names|] == names[m..];
  }

  lemma Halves(names: seq<Id>, m: nat, i: nat, j: nat)
    requires i < m <= j < |names| && names[i] == names[j]
    ensures names[i] in names[..m] && names[i] in names[m..] && names[..m] + names[m..] == names
    ensures names[m..|names|] == names[m..]
  {
    assert names[m..][j - m] == names[j] && names[..m][i] == names[i];
  }

  lemma LoopEnds(r: State<int>, w: Setup, e: nat, script: seq<seq<Move<int>>>)
    ensures LoopOf(r, w, Only(e), script, |script|) == (r, Running, |script|)
  {
  }

  lemma RunEnds(w: Setup, e: nat, script: seq<seq<Move<int>>>, r: State<int>)
    requires LoopOf(Initial(w, 0), w, Only(e), script, 0) == (r, Running, |script|)
    ensures RunOf(w, Only(e), 0, script).0 == r
  {
    hide LoopOf, Initial;
  }

  // Every run keeps the router's invariant.

  lemma ActInv<C>(s: State<C>, w: Setup, script: seq<seq<Move<C>>>, tick: nat)
    requires Inv(s, w) && tick <= |script|
    ensures Inv(ActOf(s, script, tick).0, w)
  {
    if tick < |script| {
      MovesKeep(s, w, script[tick]);
    }
  }

  lemma {:induction false} RetireInv<C>(s: State<C>, w: Setup, e: nat, script: seq<seq<Move<C>>>, tick: nat)
    requires Inv(s, w) && e < 2 && tick <= |script| && s.env.gone.Get(e) && s.env.results.Get(e) == []
    ensures Inv(RetireOf(s, e, script, tick).0, w)
    decreases |s.active.Get(e)|
  {
    if s.active.Get(e) != [] {
      var (a, next) := ActOf(s, script, tick);
      ActInv(s, w, script, tick);
      if tick < |script| {
        GoneStays(s.env, script[tick], e);
      }
      hide Inv, ActOf, MovedAll;
      OrphanedKeeps(a, w, e);
      OrphanedEngine(a, e);
      hide Orphaned;
      RetireInv(Orphaned(a, e), w, e, script, next);
    }
  }

  lemma {:induction false} DrainInv<C>(s: State<C>, w: Setup, e: nat, script: seq<seq<Move<C>>>, tick: nat)
    requires Inv(s, w) && e < 2 && tick <= |script|
    ensures Inv(DrainOf(s, e, script, tick).0, w)
    decreases |script| - tick, |s.env.results.Get(e)|
  {
    var (a, next) := ActOf(s, script, tick);
    ActInv(s, w, script, tick);
    hide Inv, Delivered;
    var replies := a.env.results.Get(e);
    if replies != [] {
      DeliveredKeeps(a, w, e);
      DeliveredEngine(a, e);
      DrainInv(Delivered(a, e), w, e, script, next);
    } else if a.env.gone.Get(e) {
      DeadKeeps(a, w, e);
      RetireInv(a.(dead := a.dead.Set(e, true)), w, e, script, next);
    }
  }

  lemma {:induction false} RouteInv<C>(
      s: State<C>, w: Setup, judge: (Job, C) -> Both<bool>, script: seq<seq<Move<C>>>, tick: nat, n: nat)
    requires Inv(s, w) && tick <= |script|
    ensures Inv(RouteOf(s, w, judge, script, tick, n).0, w)
    decreases n
  {
    hide Inv, ActOf, Routed;
    if n > 0 {
      var (a, next) := ActOf(s, script, tick);
      ActInv(s, w, script, tick);
      if a.pending != [] {
        RoutedKeeps(a, w, judge);
        RouteInv(Routed(a, w, judge), w, judge, script, next, n - 1);
      }
    }
  }

  lemma {:induction false} LoopInv<C>(
      s: State<C>, w: Setup, judge: (Job, C) -> Both<bool>, script: seq<seq<Move<C>>>, tick: nat)
    requires Inv(s, w) && tick <= |script|
    ensures Inv(LoopOf(s, w, judge, script, tick).0, w)
    decreases |script| - tick
  {
    if tick < |script| {
      hide Inv, DrainOf, RouteOf, Accepted, MovedAll;
      var (a, t1) := ActOf(s, script, tick);
      ActInv(s, w, script, tick);
      var (b, t2) := DrainOf(a, 0, script, t1);
      DrainInv(a, w, 0, script, t1);
      var (c, t3) := DrainOf(b, 1, script, t2);
      DrainInv(b, w, 1, script, t2);
      var (d, t4) := ActOf(c, script, t3);
      ActInv(c, w, script, t3);
      AcceptedKeeps(d, w);
      var f := Accepted(d, w);
      var (g, t5) := RouteOf(f, w, judge, script, t4, |f.pending|);
      RouteInv(f, w, judge, script, t4, |f.pending|);
      ClosedSenders(g, w);
      if !a.env.outClosed && !c.stop {
        LoopInv(g, w, judge, script, t5);
        LoopInv(g.(open := Both(false, false)), w, judge, script, t5);
      }
    }
  }

  lemma RunInv<C>(w: Setup, judge: (Job, C) -> Both<bool>, cfg: C, script: seq<seq<Move<C>>>)
    ensures Inv(RunOf(w, judge, cfg, script).0, w)
  {
    InitialInv(w, cfg);
    hide Inv, LoopOf, Initial;
    LoopInv(Initial(w, cfg), w, judge, script, 0);
    var s := LoopOf(Initial(w, cfg), w, judge, script, 0).0;
    StopKeeps(s, w);
    ClosedSenders(s.(stop := true), w);
  }

  /** Two jobs of one name for an engine that takes one at a time. It answers the
      first, takes nothing, answers it again, and the next job finds the second
      one still in the channel. */
  lemma SharedNameFillsChannel()
    ensures var script := SendBlock(7) + ServeBlock(1, 7, 7) + RepeatBlock(1, 7, 8);
            var r := RunOf(Setup(1, true), Only(1), 0, script).0;
            r.full == Some(Found(1, [7, 7], 8)) && r.accepted == [7, 7, 8]
  {
    var w, names := Setup(1, true), [7, 7];
    assert w.Limit(1) == 1;
    TwoSent();
    hide *;
    var script := FullRun(w, 1, names, 8, 0, 1);
    assert names + [8] == [7, 7, 8];
  }

  lemma TwoSent()
    ensures Script(1, [7, 7], 1, 2) == SendBlock(7) + ServeBlock(1, 7, 7)
  {
    hide SendBlock, ServeBlock;
    assert Script(1, [7, 7], 1, 1) == [] + SendBlock(7) == SendBlock(7);
  }

  // The exact condition.

  /** An engine that never answers a name more often than it took it never has its
      channel found full, shared names or not. */
  lemma HonestNeverFull<C>(w: Setup, judge: (Job, C) -> Both<bool>, cfg: C, script: seq<seq<Move<C>>>)
    ensures var r := RunOf(w, judge, cfg, script).0; !r.env.early || Distinct(r.accepted) ==> r.full.None?
  {
    RunInv(w, judge, cfg, script);
    hide RunOf;
    var r := RunOf(w, judge, cfg, script).0;
    FullOnlyOnDuplicates(r, w);
  }

  /** Some run first finds engine `e`'s channel full when it offers `x` after having
      sent it exactly `names`. */
  ghost predicate Fills(w: Setup, e: nat, names: seq<Id>, x: Id) {
    exists judge: (Job, int) -> Both<bool>, cfg: int, script: seq<seq<Move<int>>> ::
      RunOf(w, judge, cfg, script).0.full == Some(Found(e, names, x))
  }

  /** The exact condition on the names sent: one of the last `Limit(e)` was sent
      before them. */
  lemma FullExactly(w: Setup, e: nat, names: seq<Id>, x: Id)
    requires e < 2
    ensures Fills(w, e, names, x) <==> Overtakes(names, w.Limit(e))
  {
    hide RunOf;
    if Fills(w, e, names, x) {
      var judge: (Job, int) -> Both<bool>, cfg: int, script: seq<seq<Move<int>>> :|
        RunOf(w, judge, cfg, script).0.full == Some(Found(e, names, x));
      RunInv(w, judge, cfg, script);
    }
    if Overtakes(names, w.Limit(e)) {
      var i, j :| 0 <= i < |names| - w.Limit(e) <= j < |names| && names[i] == names[j];
      var script := FullRun(w, e, names, x, i, j);
      assert RunOf(w, Only(e), 0, script).0.full == Some(Found(e, names, x));
    }
  }

  /** A name repeats, a further name follows, and at least `limit` names lie between
      its first place and the end. For a limit of one: a name repeats and a further
      one follows. */
  predicate Crowds(names: seq<Id>, limit: nat) {
    exists i, j :: 0 <= i < j < |names| - 1 && names[i] == names[j] && i + limit + 1 < |names|
  }

  /** Which lists of names, offered to one engine in turn, can find its channel full
      before they end. */
  lemma RepeatsFill(w: Setup, e: nat, names: seq<Id>)
    requires e < 2
    ensures (exists n: nat :: n < |names| && Fills(w, e, names[..n], names[n])) <==> Crowds(names, w.Limit(e))
  {
    var limit := w.Limit(e);
    hide Fills;
    if n: nat :| n < |names| && Fills(w, e, names[..n], names[n]) {
      FullExactly(w, e, names[..n], names[n]);
      var i, j :| 0 <= i < n - limit <= j < n && names[..n][i] == names[..n][j];
      assert names[i] == names[j];
    }
    if Crowds(names, limit) {
      var i, j :| 0 <= i < j < |names| - 1 && names[i] == names[j] && i + limit + 1 < |names|;
      var n := Max(j + 1, i + limit + 1);
      assert names[..n][i] == names[..n][j];
      FullExactly(w, e, names[..n], names[n]);
    }
  }

  /** Some run accepts exactly these names, in some order, and finds engine `e`'s
      channel full. */
  ghost predicate CanFill(w: Setup, e: nat, names: seq<Id>) {
    exists judge: (Job, int) -> Both<bool>, cfg: int, script: seq<seq<Move<int>>> ::
      var r := RunOf(w, judge, cfg, script).0;
      r.full.Some? && r.full.value.e == e && multiset(r.accepted) == multiset(names)
  }

  /** The exact condition on the names accepted: one is shared, and there are at
      least two jobs more than the channel holds. */
  lemma AcceptedExactly(w: Setup, e: nat, names: seq<Id>)
    requires e < 2
    ensures CanFill(w, e, names) <==> !Distinct(names) && |names| >= w.Limit(e) + 2
  {
    hide RunOf;
    if CanFill(w, e, names) {
      var judge: (Job, int) -> Both<bool>, cfg: int, script: seq<seq<Move<int>>> :|
        var r := RunOf(w, judge, cfg, script).0;
        r.full.Some? && r.full.value.e == e && multiset(r.accepted) == multiset(names);
      RunInv(w, judge, cfg, script);
      FullNeeds(RunOf(w, judge, cfg, script).0, w, names);
    }
    if !Distinct(names) && |names| >= w.Limit(e) + 2 {
      var sent, x, i, j := Arranged(names, w.Limit(e));
      var script := FullRun(w, e, sent, x, i, j);
      assert multiset(RunOf(w, Only(e), 0, script).0.accepted) == multiset(names);
    }
  }

  lemma FullNeeds<C>(s: State<C>, w: Setup, names: seq<Id>)
    requires Inv(s, w) && s.full.Some? && multiset(s.accepted) == multiset(names)
    ensures !Distinct(names) && |names| >= w.Limit(s.full.value.e) + 2
  {
    var f := s.full.value;
    var i, j :| 0 <= i < |f.sent| - w.Limit(f.e) <= j < |f.sent| && f.sent[i] == f.sent[j];
    Twice(f.sent, i, j);
    forall x: Id
      ensures Count(f.sent + [f.id], x) <= Count(names, x)
    {
      assert AtMost(f.sent + [f.id], s.accepted, x);
    }
    CountTotal(f.sent + [f.id], names);
    CountAppend(f.sent, f.id, f.sent[i]);
    if Distinct(names) {
      DistinctOnce(names, f.sent[i]);
    }
  }

  /** A shared name first and last, with everything else but one between. */
  lemma Arranged(names: seq<Id>, limit: nat) returns (sent: seq<Id>, x: Id, i: nat, j: nat)
    requires !Distinct(names) && |names| >= limit + 2 && limit > 0
    ensures i < |sent| - limit <= j < |sent| && sent[i] == sent[j]
    ensures multiset(sent + [x]) == multiset(names)
  {
    var a, b :| 0 <= a < b < |names| && names[a] == names[b];
    var rest := names[..a] + names[a + 1..b] + names[b + 1..];
    Removed(names, a, b);
    var last := |rest| - 1;
    sent, x := [names[a]] + rest[..last] + [names[a]], rest[last];
    i, j := 0, |sent| - 1;
    assert rest == rest[..last] + [rest[last]];
  }

  lemma Removed(names: seq<Id>, a: nat, b: nat)
    requires a < b < |names|
    ensures multiset(names)
         == multiset(names[..a] + names[a + 1..b] + names[b + 1..]) + multiset{names[a]} + multiset{names[b]}
  {
    assert names == names[..a] + [names[a]] + names[a + 1..b] + [names[b]] + names[b + 1..];
  }
}
