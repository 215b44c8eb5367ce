/**
 * What the runner sees of a slot pool: per slot, how many checkpoints its job
 * has and which is next. Every command of a real pool (src/slots.rs) looks, from
 * there, like `Now` and `Report` of some happenings.
 */
module Tracks {
  import opened SlotPools
  import opened SlotRuns
  import opened Slots
  import opened Wrappers

  datatype Track = Track(next: nat, count: nat, observe: bool)

  type Board = seq<Option<Track>>

  function TrackOf(slot: Option<ResidentJob>): Option<Track> {
    if slot.None? then None else Some(Track(slot.value.nextCheckpoint, |slot.value.job.checkpoints|, slot.value.job.observe))
  }

  function BoardOf(slots: seq<Option<ResidentJob>>): (b: Board)
    ensures |b| == |slots|
  {
    seq(|slots|, s requires 0 <= s < |slots| => TrackOf(slots[s]))
  }

  /** What a command did in one slot: nothing to report, an observe-only
      readback, or the next checkpoint. */
  datatype Happening = Quiet | Observed(best: int) | Reached(best: int)

  datatype Entry = Entry(slot: nat, index: nat, last: bool, best: int, observe: bool)

  /** Only observed jobs have observe readbacks. */
  function Seen(t: Track, h: Happening): Happening {
    if h.Observed? && !t.observe then Quiet else h
  }

  function StepTrack(t: Track, h: Happening): Track {
    if h.Reached? then t.(next := t.next + 1) else t
  }

  function Now(board: Board, happen: nat -> Happening): (b: Board)
    ensures |b| == |board|
  {
    seq(|board|, s requires 0 <= s < |board| =>
      if board[s].None? then None else Some(StepTrack(board[s].value, happen(s))))
  }

  function EntryOf(t: Track, s: nat, h: Happening): seq<Entry> {
    match Seen(t, h)
    case Quiet => []
    case Observed(best) => [Entry(s, t.next, false, best, true)]
    case Reached(best) => [Entry(s, t.next, t.next + 1 == t.count, best, false)]
  }

  /** The report over slots below `k`, in slot order. */
  function Report(board: Board, happen: nat -> Happening, k: nat): seq<Entry>
    requires k <= |board|
  {
    if k == 0 then [] else Report(board, happen, k - 1) + EntriesAt(board, happen, k - 1)
  }

  /** What slot `s` adds to the report. */
  function EntriesAt(board: Board, happen: nat -> Happening, s: nat): seq<Entry>
    requires s < |board|
  {
    if board[s].None? then [] else EntryOf(board[s].value, s, happen(s))
  }

  /** A job still short of its last checkpoint in every occupied slot. */
  predicate Steppable(board: Board) {
    forall s :: 0 <= s < |board| && board[s].Some? ==> board[s].value.next < board[s].value.count
  }

  lemma EntryNames(t: Track, s: nat, h: Happening)
    ensures |EntryOf(t, s, h)| <= 1
    ensures EntryOf(t, s, h) != [] ==> EntryOf(t, s, h)[0].slot == s && EntryOf(t, s, h)[0].index == t.next
  {
  }

  /** An entry is of an occupied slot, at the checkpoint it was running to. */
  predicate Names(board: Board, happen: nat -> Happening, e: Entry) {
    && e.slot < |board| && board[e.slot].Some? && e.index == board[e.slot].value.next
    && EntryOf(board[e.slot].value, e.slot, happen(e.slot)) == [e]
  }

  /** Every entry names its slot; slots appear once, in order. */
  lemma {:induction false} ReportNames(board: Board, happen: nat -> Happening, k: nat)
    requires k <= |board|
    ensures forall i :: 0 <= i < |Report(board, happen, k)| ==>
              Names(board, happen, Report(board, happen, k)[i]) && Report(board, happen, k)[i].slot < k
    ensures forall i, j :: 0 <= i < j < |Report(board, happen, k)| ==>
              Report(board, happen, k)[i].slot < Report(board, happen, k)[j].slot
  {
    hide EntryOf;
    if k > 0 {
      ReportNames(board, happen, k - 1);
      var before, report := Report(board, happen, k - 1), Report(board, happen, k);
      if board[k - 1].Some? {
        var more := EntryOf(board[k - 1].value, k - 1, happen(k - 1));
        EntryNames(board[k - 1].value, k - 1, happen(k - 1));
        assert report == before + more;
        forall i | 0 <= i < |report|
          ensures Names(board, happen, report[i]) && report[i].slot < k && (i < |before| ==> report[i].slot < k - 1)
        {
          if i < |before| {
            assert report[i] == before[i];
          } else {
            assert report[i] == more[0] && more == [more[0]];
          }
        }
        hide Names;
        forall i, j | 0 <= i < j < |report|
          ensures report[i].slot < report[j].slot
        {
          assert report[i] == before[i];
          if j < |before| {
            assert report[j] == before[j];
          } else {
            assert report[j] == more[0];
          }
        }
      } else {
        assert report == before;
      }
    }
  }

  // A real pool's commands.

  function EntryOfCheckpoint(c: Checkpoint): Entry {
    Entry(c.slot, c.index, c.last, c.best, c.observe)
  }

  function Entries(report: seq<Checkpoint>): (e: seq<Entry>)
    ensures |e| == |report|
  {
    seq(|report|, i requires 0 <= i < |report| => EntryOfCheckpoint(report[i]))
  }

  /** The happening of slot `s`, read off a report. */
  function HappeningIn(report: seq<Checkpoint>, s: nat): Happening {
    if report == [] then Quiet
    else if report[0].slot == s then
      (if report[0].observe then Observed(report[0].best) else Reached(report[0].best))
    else HappeningIn(report[1..], s)
  }

  function Happenings(report: seq<Checkpoint>): nat -> Happening {
    (s: nat) => HappeningIn(report, s)
  }

  lemma {:induction false} HappeningAt(report: seq<Checkpoint>, i: nat)
    requires i < |report| && forall k, l :: 0 <= k < l < |report| ==> report[k].slot < report[l].slot
    ensures HappeningIn(report, report[i].slot) == if report[i].observe then Observed(report[i].best) else Reached(report[i].best)
  {
    if i > 0 {
      HappeningAt(report[1..], i - 1);
      assert report[1..][i - 1] == report[i];
      assert report[0].slot < report[i].slot;
    }
  }

  lemma {:induction false} HappeningNone(report: seq<Checkpoint>, s: nat)
    requires forall i :: 0 <= i < |report| ==> report[i].slot != s
    ensures HappeningIn(report, s) == Quiet
  {
    if report != [] {
      HappeningNone(report[1..], s);
    }
  }

  /** A live slot that is not reported did not pass a checkpoint. */
  lemma QuietSlot<S>(d: Device<S>, s: nat, was: Option<ResidentJob>, now: Option<ResidentJob>, limits: Limits)
    requires limits.Positive() && Moved(d, s, was, now, limits)
    ensures now.value.job == was.value.job
    ensures !Stopped(now) ==> now.value.nextCheckpoint == was.value.nextCheckpoint
  {
    StepStops(d, was.value, s, limits);
  }

  /** How many entries are of slots below `k`. */
  function Below(report: seq<Checkpoint>, k: nat): (m: nat)
    ensures m <= |report|
    ensures forall i :: 0 <= i < m ==> report[i].slot < k
    ensures m < |report| ==> report[m].slot >= k
  {
    if report == [] || report[0].slot >= k then 0 else 1 + Below(report[1..], k)
  }

  ghost predicate Command<S>(
    d: Device<S>, was: seq<Option<ResidentJob>>, now: seq<Option<ResidentJob>>, outputs: seq<S>,
    report: seq<Checkpoint>, flying: Limits, steps: seq<SlotStep>, us: nat)
  {
    && flying.Positive() && AllMoved(d, flying, steps, us, was, now) && AllReported(d, was, now, outputs, report)
  }

  predicate Sorted(report: seq<Checkpoint>) {
    forall i, j :: 0 <= i < j < |report| ==> report[i].slot < report[j].slot
  }

  /** The report says of slot `s` what its happening says. */
  predicate Fits(board: Board, report: seq<Checkpoint>, s: nat)
    requires s < |board|
  {
    && (forall i :: 0 <= i < |report| && report[i].slot == s ==>
          board[s].Some? && EntryOf(board[s].value, s, HappeningIn(report, s)) == [EntryOfCheckpoint(report[i])])
    && ((forall i :: 0 <= i < |report| ==> report[i].slot != s) && board[s].Some? ==>
          EntryOf(board[s].value, s, HappeningIn(report, s)) == [])
  }

  lemma ReportedFits<S>(d: Device<S>, report: seq<Checkpoint>, i: nat, was: Option<ResidentJob>, now: Option<ResidentJob>,
                        output: S, limits: Limits)
    requires i < |report| && Sorted(report) && Reported(d, report[i], was, now, output)
    requires limits.Positive() && Moved(d, report[i].slot, was, now, limits)
    ensures EntryOf(TrackOf(was).value, report[i].slot, HappeningIn(report, report[i].slot)) == [EntryOfCheckpoint(report[i])]
    ensures TrackOf(now) == Some(StepTrack(TrackOf(was).value, HappeningIn(report, report[i].slot)))
  {
    HappeningAt(report, i);
    QuietSlot(d, report[i].slot, was, now, limits);
  }

  /** What a command says of one slot. */
  lemma CommandAt<S>(
    d: Device<S>, was: seq<Option<ResidentJob>>, now: seq<Option<ResidentJob>>, outputs: seq<S>,
    report: seq<Checkpoint>, flying: Limits, steps: seq<SlotStep>, us: nat, s: nat)
    requires Command(d, was, now, outputs, report, flying, steps, us) && s < |was|
    ensures |now| == |was| == |outputs| && Sorted(report) && flying.Positive()
    ensures was[s].None? ==> now[s].None?
    ensures was[s].Some? ==> Moved(d, s, was[s], now[s], flying)
    ensures forall i :: 0 <= i < |report| && report[i].slot == s ==> Reported(d, report[i], was[s], now[s], outputs[s])
    ensures was[s].Some? && Stopped(now[s]) ==> exists i :: 0 <= i < |report| && report[i].slot == s
  {
    hide Moved, Reported, Stopped, Charged;
  }

  lemma MovedSlot<S>(d: Device<S>, s: nat, was: Option<ResidentJob>, now: Option<ResidentJob>, limits: Limits)
    requires Moved(d, s, was, now, limits)
    ensures was.Some? && now.Some? && !was.value.Done()
  {
    hide StepOf;
  }

  lemma ReportedSlot<S>(d: Device<S>, c: Checkpoint, was: Option<ResidentJob>, now: Option<ResidentJob>, output: S)
    requires Reported(d, c, was, now, output)
    ensures was.Some?
  {
  }

  lemma SlotProjects<S>(
    d: Device<S>, was: seq<Option<ResidentJob>>, now: seq<Option<ResidentJob>>, outputs: seq<S>,
    report: seq<Checkpoint>, flying: Limits, steps: seq<SlotStep>, us: nat, s: nat)
    requires Command(d, was, now, outputs, report, flying, steps, us) && s < |was|
    ensures |now| == |was| && TrackOf(now[s]) == Now(BoardOf(was), Happenings(report))[s]
    ensures Fits(BoardOf(was), report, s)
    ensures was[s].Some? ==> !was[s].value.Done()
  {
    hide EntryOf, StepTrack, Command, Moved, Charged, Reported, Stopped, HappeningIn;
    CommandAt(d, was, now, outputs, report, flying, steps, us, s);
    if was[s].Some? {
      MovedSlot(d, s, was[s], now[s], flying);
    }
    if i :| 0 <= i < |report| && report[i].slot == s {
      ReportedSlot(d, report[i], was[s], now[s], outputs[s]);
      ReportedFits(d, report, i, was[s], now[s], outputs[s], flying);
      forall k | 0 <= k < |report| && report[k].slot == s
        ensures k == i
      {
      }
    } else {
      HappeningNone(report, s);
      if was[s].Some? {
        QuietSlot(d, s, was[s], now[s], flying);
        QuietEntry(TrackOf(was[s]).value, s);
      }
    }
  }

  lemma QuietEntry(t: Track, s: nat)
    ensures EntryOf(t, s, Quiet) == [] && StepTrack(t, Quiet) == t
  {
  }

  lemma {:induction false} NextBelow(report: seq<Checkpoint>, k: nat)
    requires Sorted(report)
    ensures Below(report, k + 1)
         == Below(report, k) + if Below(report, k) < |report| && report[Below(report, k)].slot == k then 1 else 0
  {
    if report != [] && report[0].slot < k {
      NextBelow(report[1..], k);
    } else if report != [] && |report| > 1 {
      assert report[0].slot < report[1].slot;
    }
  }

  lemma {:induction false} ReportProjects(board: Board, report: seq<Checkpoint>, k: nat)
    requires Sorted(report) && k <= |board| && forall s :: 0 <= s < |board| ==> Fits(board, report, s)
    ensures Report(board, Happenings(report), k) == Entries(report[..Below(report, k)])
  {
    hide Below, Fits, Sorted, EntryOf, EntryOfCheckpoint, HappeningIn, Entries, Happenings, EntriesAt;
    if k == 0 {
      NoneBelow(report);
    } else {
      ReportProjects(board, report, k - 1);
      NextBelow(report, k - 1);
      NextEntry(board, report, k - 1, Below(report, k - 1));
      var m := Below(report, k - 1);
      if m < |report| && report[m].slot == k - 1 {
        EntriesSnoc(report, m);
      }
    }
  }

  lemma NoneBelow(report: seq<Checkpoint>)
    ensures Entries(report[..Below(report, 0)]) == []
  {
  }

  lemma EntriesSnoc(report: seq<Checkpoint>, m: nat)
    requires m < |report|
    ensures Entries(report[..m + 1]) == Entries(report[..m]) + [EntryOfCheckpoint(report[m])]
  {
    hide EntryOfCheckpoint;
  }

  /** What slot `s` adds to the report: the entry at `m`, if it is of `s`. */
  lemma NextEntry(board: Board, report: seq<Checkpoint>, s: nat, m: nat)
    requires Sorted(report) && s < |board| && Fits(board, report, s) && m == Below(report, s)
    ensures EntriesAt(board, Happenings(report), s)
         == if m < |report| && report[m].slot == s then [EntryOfCheckpoint(report[m])] else []
  {
    hide EntryOf, HappeningIn;
    if m == |report| || report[m].slot != s {
      NotNamed(report, s, m);
    }
  }

  lemma NotNamed(report: seq<Checkpoint>, s: nat, m: nat)
    requires Sorted(report) && m <= |report|
    requires forall i :: 0 <= i < m ==> report[i].slot < s
    requires m < |report| ==> report[m].slot > s
    ensures forall i :: 0 <= i < |report| ==> report[i].slot != s
  {
  }

  /** A pool's command, seen from the runner: the boards before and after and the
      report are those of some happenings, and nothing live was past its last
      checkpoint. */
  lemma CommandProjects<S>(
    d: Device<S>, was: seq<Option<ResidentJob>>, now: seq<Option<ResidentJob>>, outputs: seq<S>,
    report: seq<Checkpoint>, flying: Limits, steps: seq<SlotStep>, us: nat)
    requires Command(d, was, now, outputs, report, flying, steps, us)
    ensures BoardOf(now) == Now(BoardOf(was), Happenings(report))
    ensures Entries(report) == Report(BoardOf(was), Happenings(report), |was|)
    ensures Steppable(BoardOf(was))
  {
    hide Command, Now, Entries, TrackOf, Fits, Below, Report, Happenings, Steppable;
    BoardProjects(d, was, now, outputs, report, flying, steps, us);
    NoneDone(d, was, now, outputs, report, flying, steps, us);
    CommandSorted(d, was, now, outputs, report, flying, steps, us);
    forall s: nat | s < |was|
      ensures Fits(BoardOf(was), report, s)
    {
      SlotProjects(d, was, now, outputs, report, flying, steps, us, s);
    }
    ReportProjects(BoardOf(was), report, |was|);
    AllBelow(report, |was|);
    assert report[..|report|] == report;
  }

  lemma CommandSorted<S>(
    d: Device<S>, was: seq<Option<ResidentJob>>, now: seq<Option<ResidentJob>>, outputs: seq<S>,
    report: seq<Checkpoint>, flying: Limits, steps: seq<SlotStep>, us: nat)
    requires Command(d, was, now, outputs, report, flying, steps, us)
    ensures Sorted(report) && |now| == |was| && forall i :: 0 <= i < |report| ==> report[i].slot < |was|
  {
    hide Reported, Moved, Charged, Stopped;
  }

  lemma BoardProjects<S>(
    d: Device<S>, was: seq<Option<ResidentJob>>, now: seq<Option<ResidentJob>>, outputs: seq<S>,
    report: seq<Checkpoint>, flying: Limits, steps: seq<SlotStep>, us: nat)
    requires Command(d, was, now, outputs, report, flying, steps, us)
    ensures BoardOf(now) == Now(BoardOf(was), Happenings(report))
  {
    CommandSorted(d, was, now, outputs, report, flying, steps, us);
    hide Command, Now, TrackOf;
    forall s: nat | s < |was|
      ensures BoardOf(now)[s] == Now(BoardOf(was), Happenings(report))[s]
    {
      SlotProjects(d, was, now, outputs, report, flying, steps, us, s);
    }
  }

  lemma NoneDone<S>(
    d: Device<S>, was: seq<Option<ResidentJob>>, now: seq<Option<ResidentJob>>, outputs: seq<S>,
    report: seq<Checkpoint>, flying: Limits, steps: seq<SlotStep>, us: nat)
    requires Command(d, was, now, outputs, report, flying, steps, us)
    ensures Steppable(BoardOf(was))
  {
    forall s: nat | s < |was| && was[s].Some?
      ensures !was[s].value.Done()
    {
      SlotProjects(d, was, now, outputs, report, flying, steps, us, s);
    }
    hide Command;
  }

  lemma AllBelow(report: seq<Checkpoint>, k: nat)
    requires forall i :: 0 <= i < |report| ==> report[i].slot < k
    ensures Below(report, k) == |report|
  {
  }

  /** A pool refuses a step exactly when the board says a job has none left. */
  lemma DoneOnBoard(slots: seq<Option<ResidentJob>>)
    ensures AnyDone(slots) <==> !Steppable(BoardOf(slots))
  {
    if !Steppable(BoardOf(slots)) {
      var s :| 0 <= s < |slots| && BoardOf(slots)[s].Some? && BoardOf(slots)[s].value.next >= BoardOf(slots)[s].value.count;
      assert slots[s].value.Done();
    }
    if AnyDone(slots) {
      var s :| 0 <= s < |slots| && slots[s].Some? && slots[s].value.Done();
      assert BoardOf(slots)[s].Some?;
    }
  }
}
