/**
 * The runner's preparation queue and the worker queues behind it
 * (src/resident.rs). Whatever the workers do between any two of its calls, the
 * runner sees one queue: what is taken is the oldest submitted.
 */
module PreparedQueues {
  import opened Preparations
  import opened Wrappers
  import Residents
  import Harvests
  import Schedules

  /** A submission, a worker's next action, or the oldest unit taken while the
      workers `others` act. */
  datatype Call<U> = Submit(unit: U) | Work(worker: nat) | Take(others: seq<nat>)

  // One queue.

  function Next<U>(queue: seq<U>, call: Call<U>): seq<U> {
    match call
    case Submit(unit) => if |queue| < PREP_BOUND then queue + [unit] else queue
    case Work(_) => queue
    case Take(_) => if queue == [] then [] else queue[1..]
  }

  function Answer<U>(queue: seq<U>, call: Call<U>): Option<U> {
    if call.Take? && queue != [] then Some(queue[0]) else None
  }

  function After<U>(queue: seq<U>, calls: seq<Call<U>>): seq<U> {
    if calls == [] then queue else Next(After(queue, calls[..|calls| - 1]), calls[|calls| - 1])
  }

  function Answers<U>(queue: seq<U>, calls: seq<Call<U>>): (r: seq<Option<U>>)
    ensures |r| == |calls|
  {
    if calls == [] then []
    else
      var last := |calls| - 1;
      Answers(queue, calls[..last]) + [Answer(After(queue, calls[..last]), calls[last])]
  }

  lemma OneMore<U>(queue: seq<U>, calls: seq<Call<U>>, k: nat)
    requires k < |calls|
    ensures After(queue, calls[..k + 1]) == Next(After(queue, calls[..k]), calls[k])
    ensures Answers(queue, calls[..k + 1])
         == Answers(queue, calls[..k]) + [Answer(After(queue, calls[..k]), calls[k])]
  {
    assert calls[..k + 1][..k] == calls[..k];
  }

  // Eight worker queues.

  /** One call served by the workers' queues, without waiting for room. */
  method Serve<U>(prep: Preparation<U>, call: Call<U>) returns (told: Option<U>)
    requires prep.Valid() && prep.prep.Len() <= PREP_BOUND
    modifies prep
    ensures prep.Valid() && prep.prep.Len() <= PREP_BOUND
    ensures prep.ready == Next(old(prep.ready), call) && told == Answer(old(prep.ready), call)
  {
    told := None;
    hide Prep.Ok;
    Ready(prep);
    match call
    case Submit(unit) =>
      if |prep.ready| < PREP_BOUND {
        prep.Submit(unit);
      }
    case Work(worker) =>
      prep.Work(worker % PREP_WORKERS);
    case Take(others) =>
      told := prep.Next(others);
    Ready(prep);
  }

  /** What is ready is what is outstanding. */
  lemma Ready<U>(prep: Preparation<U>)
    requires prep.Valid()
    ensures |prep.ready| == prep.prep.Len() && prep.prep.first <= |prep.sources|
    ensures prep.ready == prep.sources[prep.prep.first..]
  {
    hide Prep.WorkerOk, Prep.Placed;
  }

  /** Any sequence of calls, workers acting anywhere in between: the units come
      out as from one queue. */
  method Drive<U>(prep: Preparation<U>, calls: seq<Call<U>>) returns (told: seq<Option<U>>)
    requires prep.Valid() && prep.prep.Len() <= PREP_BOUND
    modifies prep
    ensures prep.Valid() && prep.prep.Len() <= PREP_BOUND
    ensures prep.ready == After(old(prep.ready), calls) && told == Answers(old(prep.ready), calls)
  {
    told := [];
    hide Prep.Ok, Next, Answer;
    ghost var start := prep.ready;
    for k := 0 to |calls|
      invariant prep.Valid() && prep.prep.Len() <= PREP_BOUND
      invariant prep.ready == After(start, calls[..k]) && told == Answers(start, calls[..k])
    {
      hide After, Answers;
      var one := Serve(prep, calls[k]);
      OneMore(start, calls, k);
      told := told + [one];
    }
    assert calls[..|calls|] == calls;
  }

  // The runner's own queue.

  /** What the runner hands over: a unit and the settings in force. */
  type Item = (Harvests.Unit, Schedules.Settings)

  /** Workers' actions change nothing the runner can see. */
  predicate Workers(calls: seq<Call<Item>>) {
    forall i :: 0 <= i < |calls| ==> calls[i].Work?
  }

  lemma {:induction false} WorkersUnseen(queue: seq<Item>, calls: seq<Call<Item>>)
    requires Workers(calls)
    ensures After(queue, calls) == queue
  {
    if calls != [] {
      WorkersUnseen(queue, calls[..|calls| - 1]);
    }
  }

  function Submits(items: seq<Item>): (calls: seq<Call<Item>>)
    ensures |calls| == |items|
  {
    seq(|items|, i requires 0 <= i < |items| => Submit(items[i]))
  }

  lemma {:induction false} AllSubmitted(queue: seq<Item>, items: seq<Item>)
    requires |queue| + |items| <= PREP_BOUND
    ensures After(queue, Submits(items)) == queue + items
  {
    if items != [] {
      var last := |items| - 1;
      AllSubmitted(queue, items[..last]);
      assert Submits(items)[..last] == Submits(items[..last]);
      assert (queue + items[..last]) + [items[last]] == queue + items;
    }
  }

  lemma {:induction false} AfterBoth(queue: seq<Item>, a: seq<Call<Item>>, b: seq<Call<Item>>)
    ensures After(queue, a + b) == After(After(queue, a), b)
  {
    if b == [] {
      assert a + b == a;
    } else {
      var last := |b| - 1;
      AfterBoth(queue, a, b[..last]);
      assert (a + b)[..|a + b| - 1] == a + b[..last];
    }
  }

  lemma SubmittedAmong(queue: seq<Item>, items: seq<Item>, before: seq<Call<Item>>, after: seq<Call<Item>>)
    requires Workers(before) && Workers(after) && |queue| + |items| <= PREP_BOUND
    ensures After(queue, before + Submits(items) + after) == queue + items
  {
    hide After, Submits, Workers;
    AfterBoth(queue, before + Submits(items), after);
    AfterBoth(queue, before, Submits(items));
    WorkersUnseen(queue, before);
    AllSubmitted(queue, items);
    WorkersUnseen(queue + items, after);
  }

  /** Filling is submitting, in order, with the workers acting before and after,
      and never meets a full queue; taking the oldest is taking. So the units the
      runner counts as in preparation are those the workers have. */
  lemma FillFollows(s0: Residents.State, s: Residents.State, open: Option<bool>, before: seq<Call<Item>>, after: seq<Call<Item>>)
    requires Residents.Inv(s, open) && Residents.Fed(s0, s) && Workers(before) && Workers(after)
    ensures After(s0.queue, before + Submits(s.queue[|s0.queue|..]) + after) == s.queue
  {
    hide Residents.Inv, After, Submits, Workers, Residents.Fed;
    Residents.EofMeans(s, open);
    FedGrows(s0, s);
    var items := s.queue[|s0.queue|..];
    SubmittedAmong(s0.queue, items, before, after);
  }

  lemma FedGrows(s0: Residents.State, s: Residents.State)
    requires Residents.Fed(s0, s)
    ensures s0.queue <= s.queue && s0.queue + s.queue[|s0.queue|..] == s.queue
  {
  }

  lemma TakeFollows(s: Residents.State, before: seq<Call<Item>>, others: seq<nat>)
    requires s.queue != [] && s.pending.None? && Workers(before)
    ensures After(s.queue, before + [Take(others)]) == Residents.Taken(s).queue
    ensures Answer(After(s.queue, before), Take(others)) == Some(s.queue[0])
    ensures Residents.Taken(s).pending.value.unit == s.queue[0].0
  {
    WorkersUnseen(s.queue, before);
    assert (before + [Take(others)])[..|before|] == before;
  }
}
