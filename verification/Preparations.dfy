/**
 * The preparation queue (src/resident.rs): units handed round-robin to workers,
 * their results taken in the order submitted. Workers run between any two of the
 * runner's steps, in any interleaving; they are assumed to stay alive.
 */
module Preparations {
  import opened Wrappers

  const PREP_WORKERS: nat := 8
  const PREP_BOUND: nat := 40

  // Which input feeds next.

  datatype Choice = FromJobs | FromSalts | Neither

  /** The next source and whether the job input is now known to be over: the
      preferred input if it has something, else the other. */
  function Choose(preferSalt: bool, eof: bool, jobs: nat, jobsClosed: bool, salts: nat): (Choice, bool) {
    if preferSalt then
      if salts > 0 then (FromSalts, eof)
      else if eof then (Neither, eof)
      else if jobs > 0 then (FromJobs, eof)
      else (Neither, jobsClosed)
    else if !eof then
      if jobs > 0 then (FromJobs, eof)
      else (if salts > 0 then FromSalts else Neither, jobsClosed)
    else (if salts > 0 then FromSalts else Neither, eof)
  }

  /** The preferred input is taken whenever it has something; the other only when
      it has not; nothing is left waiting in either once the choice is neither. The
      end of the jobs is noticed whenever their input is looked at. */
  lemma ChooseFair(preferSalt: bool, eof: bool, jobs: nat, jobsClosed: bool, salts: nat)
    requires eof ==> jobs == 0
    ensures var (choice, over) := Choose(preferSalt, eof, jobs, jobsClosed, salts);
            && (choice == FromJobs <==> jobs > 0 && (!preferSalt || salts == 0))
            && (choice == FromSalts <==> salts > 0 && (preferSalt || jobs == 0))
            && (choice == Neither <==> jobs == 0 && salts == 0)
            && (over <==> eof || (jobsClosed && jobs == 0 && (!preferSalt || salts == 0)))
  {
  }

  /** One choice made, and what was waiting when it was. */
  datatype Pick = Pick(choice: Choice, jobs: nat, salts: nat)

  /** Choices made with the preference the last one left behind. */
  predicate Picked(picks: seq<Pick>, preferSalt: bool) {
    && (forall k :: 0 <= k < |picks| ==>
          var prefer := if k == 0 then preferSalt else picks[k - 1].choice == FromJobs;
          picks[k].choice != Neither && picks[k].choice == Choose(prefer, false, picks[k].jobs, false, picks[k].salts).0)
  }

  /** While both inputs have something waiting the two alternate strictly. */
  lemma Alternate(picks: seq<Pick>, preferSalt: bool, k: nat)
    requires Picked(picks, preferSalt) && k + 1 < |picks|
    ensures picks[k + 1].jobs > 0 && picks[k + 1].salts > 0 ==> picks[k + 1].choice != picks[k].choice
  {
    var prefer := picks[k].choice == FromJobs;
    assert picks[k + 1].choice == Choose(prefer, false, picks[k + 1].jobs, false, picks[k + 1].salts).0;
  }

  // The queue.

  /** Outstanding units are numbered in the order submitted: `first` is the next
      to be taken and `count` have been submitted. A worker has its own queue, at
      most one unit at hand, and answers each through a channel of its own. */
  datatype Prep = Prep(
    first: nat, count: nat, nextWorker: nat,
    queues: seq<seq<nat>>, busy: seq<Option<nat>>, replied: set<nat>)
  {
    /** Where unit `n` is: with its worker, or answered. */
    predicate Placed(n: nat)
      requires |queues| == |busy| == PREP_WORKERS
    {
      var w := n % PREP_WORKERS;
      n in queues[w] || busy[w] == Some(n) || n in replied
    }

    /** A worker has only its own units, oldest first, none of them answered. */
    predicate WorkerOk(w: nat)
      requires w < |queues| == |busy|
    {
      && (forall i :: 0 <= i < |queues[w]| ==>
            && first <= queues[w][i] < count && queues[w][i] % PREP_WORKERS == w && queues[w][i] !in replied)
      && (forall i, j :: 0 <= i < j < |queues[w]| ==> queues[w][i] < queues[w][j])
      && (busy[w].Some? ==>
            && first <= busy[w].value < count && busy[w].value % PREP_WORKERS == w && busy[w].value !in replied
            && forall i :: 0 <= i < |queues[w]| ==> busy[w].value < queues[w][i])
    }

    predicate Ok() {
      && first <= count && nextWorker == count % PREP_WORKERS
      && |queues| == |busy| == PREP_WORKERS
      && (forall w :: 0 <= w < PREP_WORKERS ==> WorkerOk(w))
      && (forall n :: first <= n < count ==> Placed(n))
      && (forall n :: n in replied ==> first <= n < count)
    }

    function Len(): int { count - first }
  }

  function Fresh(): Prep {
    Prep(0, 0, 0, seq(PREP_WORKERS, _ => []), seq(PREP_WORKERS, _ => None), {})
  }

  lemma FreshOk()
    ensures Fresh().Ok() && Fresh().first == Fresh().count == 0
  {
  }

  /** A unit submitted to the next worker in turn. */
  function Submitted(p: Prep): Prep
    requires p.Ok()
  {
    p.(count := p.count + 1, nextWorker := (p.nextWorker + 1) % PREP_WORKERS,
       queues := p.queues[p.nextWorker := p.queues[p.nextWorker] + [p.count]])
  }

  /** A worker takes its oldest unit to hand, or answers the one at hand. */
  function Worked(p: Prep, w: nat): Prep
    requires p.Ok() && w < PREP_WORKERS
  {
    if p.busy[w].Some? then p.(busy := p.busy[w := None], replied := p.replied + {p.busy[w].value})
    else if p.queues[w] != [] then
      p.(busy := p.busy[w := Some(p.queues[w][0])], queues := p.queues[w := p.queues[w][1..]])
    else p
  }

  /** The oldest unit taken once it is answered. */
  function Popped(p: Prep): Prep
    requires p.Ok() && p.first in p.replied
  {
    p.(first := p.first + 1, replied := p.replied - {p.first})
  }

  lemma SubmittedOk(p: Prep)
    requires p.Ok()
    ensures Submitted(p).Ok() && Submitted(p).Len() == p.Len() + 1
  {
    hide Prep.WorkerOk, Prep.Placed;
    var q := Submitted(p);
    forall w: nat | w < PREP_WORKERS
      ensures q.WorkerOk(w)
    {
      SubmittedWorker(p, w);
    }
    forall n: nat | q.first <= n < q.count
      ensures q.Placed(n)
    {
      SubmittedPlaced(p, n);
    }
  }

  lemma SubmittedWorker(p: Prep, w: nat)
    requires p.Ok() && w < PREP_WORKERS
    ensures Submitted(p).WorkerOk(w)
  {
    hide Prep.Placed;
    assert p.WorkerOk(w);
  }

  lemma SubmittedPlaced(p: Prep, n: nat)
    requires p.Ok() && p.first <= n <= p.count
    ensures Submitted(p).Placed(n)
  {
    hide Prep.WorkerOk;
    assert n < p.count ==> p.Placed(n);
    assert n == p.count ==> Submitted(p).queues[p.nextWorker][|p.queues[p.nextWorker]|] == n;
  }

  lemma WorkedWorker(p: Prep, w: nat, v: nat)
    requires p.Ok() && w < PREP_WORKERS && v < PREP_WORKERS
    ensures Worked(p, w).WorkerOk(v)
  {
    hide Prep.Placed;
    assert p.WorkerOk(w) && p.WorkerOk(v);
  }

  lemma WorkedPlaced(p: Prep, w: nat, n: nat)
    requires p.Ok() && w < PREP_WORKERS && p.first <= n < p.count
    ensures Worked(p, w).Placed(n)
  {
    assert p.Placed(n);
    var q := p.queues[w];
    if n in q && q[0] != n {
      assert n in q[1..];
    }
  }

  lemma WorkedBounds(p: Prep, w: nat)
    requires p.Ok() && w < PREP_WORKERS
    ensures forall n :: n in Worked(p, w).replied ==> p.first <= n < p.count
  {
    hide Prep.Placed;
    assert p.WorkerOk(w);
  }

  lemma WorkedOk(p: Prep, w: nat)
    requires p.Ok() && w < PREP_WORKERS
    ensures Worked(p, w).Ok() && Worked(p, w).Len() == p.Len() && p.replied <= Worked(p, w).replied
  {
    var q := Worked(p, w);
    WorkedBounds(p, w);
    hide Prep.WorkerOk, Prep.Placed;
    forall v | 0 <= v < PREP_WORKERS
      ensures q.WorkerOk(v)
    {
      WorkedWorker(p, w, v);
    }
    forall n | q.first <= n < q.count
      ensures q.Placed(n)
    {
      WorkedPlaced(p, w, n);
    }
  }

  lemma PoppedOk(p: Prep)
    requires p.Ok() && p.first in p.replied
    ensures Popped(p).Ok() && Popped(p).Len() == p.Len() - 1
  {
    var q := Popped(p);
    forall w | 0 <= w < PREP_WORKERS
      ensures q.WorkerOk(w)
    {
      assert p.WorkerOk(w);
    }
    forall n | q.first <= n < q.count
      ensures q.Placed(n)
    {
      assert p.Placed(n);
    }
  }

  /** Below the bound a worker's queue has room, so submitting never waits: its
      units are outstanding, eight apart. */
  lemma {:induction false} QueueRoom(p: Prep, w: nat, k: nat)
    requires p.Ok() && w < PREP_WORKERS && k < |p.queues[w]|
    ensures p.first + PREP_WORKERS * k <= p.queues[w][k] < p.count
    decreases k
  {
    assert p.WorkerOk(w);
    if k > 0 {
      QueueRoom(p, w, k - 1);
      assert p.queues[w][k - 1] < p.queues[w][k];
      EightApart(p.queues[w][k - 1], p.queues[w][k], w);
    }
  }

  lemma EightApart(a: nat, b: nat, w: nat)
    requires a < b && a % PREP_WORKERS == w && b % PREP_WORKERS == w
    ensures a + PREP_WORKERS <= b
  {
  }

  lemma NeverBlocks(p: Prep, w: nat)
    requires p.Ok() && w < PREP_WORKERS && p.Len() <= PREP_BOUND
    ensures |p.queues[w]| <= PREP_BOUND / PREP_WORKERS < PREP_BOUND
  {
    if p.queues[w] != [] {
      QueueRoom(p, w, |p.queues[w]| - 1);
    }
  }

  /** A reply channel holds one answer, and a worker answers into an empty one. */
  lemma AnsweredOnce(p: Prep, w: nat)
    requires p.Ok() && w < PREP_WORKERS && p.busy[w].Some?
    ensures p.busy[w].value !in p.replied && p.busy[w].value in Worked(p, w).replied
    ensures forall v :: 0 <= v < PREP_WORKERS && v != w ==> p.busy[v] != p.busy[w] && p.busy[w].value !in p.queues[v]
  {
    assert p.WorkerOk(w);
    forall v | 0 <= v < PREP_WORKERS && v != w
      ensures p.busy[v] != p.busy[w] && p.busy[w].value !in p.queues[v]
    {
      assert p.WorkerOk(v);
    }
  }

  /** How far the oldest unit is from being answered. */
  function Distance(p: Prep): nat
    requires p.Ok()
  {
    if p.first in p.replied then 0 else if p.busy[p.first % PREP_WORKERS] == Some(p.first) then 1 else 2
  }

  /** The oldest unit's worker can always move it on: it is at hand, or next. */
  lemma OldestMoves(p: Prep)
    requires p.Ok() && p.Len() > 0 && p.first !in p.replied
    ensures Worked(p, p.first % PREP_WORKERS).Ok()
    ensures Distance(Worked(p, p.first % PREP_WORKERS)) < Distance(p)
  {
    var w := p.first % PREP_WORKERS;
    WorkedOk(p, w);
    assert p.Placed(p.first) && p.WorkerOk(w);
    if p.busy[w] != Some(p.first) {
      var i :| 0 <= i < |p.queues[w]| && p.queues[w][i] == p.first;
      assert i == 0;
    }
  }

  /** The runner's handle on the workers. `sources` is everything submitted. */
  class Preparation<U> {
    var prep: Prep
    ghost var sources: seq<U>
    var ready: seq<U>

    ghost predicate Valid()
      reads this
    {
      prep.Ok() && prep.count == |sources| && ready == sources[prep.first..]
    }

    constructor ()
      ensures Valid() && sources == [] && prep.Len() == 0
    {
      FreshOk();
      prep, sources, ready := Fresh(), [], [];
      new;
      hide Fresh;
    }

    /** Below the bound the send does not wait: the worker's queue has room. */
    method Submit(source: U)
      requires Valid() && prep.Len() < PREP_BOUND
      modifies this
      ensures Valid() && sources == old(sources) + [source] && prep.first == old(prep.first)
      ensures prep.Len() <= PREP_BOUND
      ensures old(prep.nextWorker) < |old(prep).queues| && |old(prep).queues[old(prep.nextWorker)]| < PREP_BOUND
    {
      NeverBlocks(prep, prep.nextWorker);
      SubmittedOk(prep);
      prep, sources, ready := Submitted(prep), sources + [source], ready + [source];
    }

    /** Any worker does one thing. */
    method Work(w: nat)
      requires Valid() && w < PREP_WORKERS
      modifies this`prep
      ensures Valid() && prep == Worked(old(prep), w)
    {
      WorkedOk(prep, w);
      prep := Worked(prep, w);
    }

    /** The next unit in the order submitted, or nothing when none is
        outstanding. Other workers act while it waits, as `others` says; its own
        worker always can, so the wait ends. */
    method Next(others: seq<nat>) returns (u: Option<U>)
      requires Valid()
      modifies this
      ensures Valid() && sources == old(sources)
      ensures u.None? <==> old(prep.Len()) == 0
      ensures u.Some? ==> u.value == sources[old(prep.first)] && prep.first == old(prep.first) + 1
      ensures u.None? ==> prep == old(prep)
    {
      if prep.Len() == 0 {
        return None;
      }
      var k := 0;
      while prep.first !in prep.replied
        invariant Valid() && sources == old(sources) && prep.first == old(prep.first) && prep.count == old(prep.count)
        invariant k <= |others|
        decreases |others| - k, Distance(prep)
      {
        if k < |others| {
          Work(others[k] % PREP_WORKERS);
          k := k + 1;
        } else {
          OldestMoves(prep);
          Work(prep.first % PREP_WORKERS);
        }
      }
      PoppedOk(prep);
      u := Some(ready[0]);
      prep, ready := Popped(prep), ready[1..];
    }
  }
}
