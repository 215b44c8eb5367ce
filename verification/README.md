# Verification of the Metal sampler's resident cascade

The sampler cuts long annealing schedules into small GPU steps, gates the jobs at
checkpoints, and has to answer every unit of work exactly once. This project models
its cooperating state machines in Dafny and proves what they promise.

| part | source | modules |
|---|---|---|
| Slot stepping | `src/slots.rs` | `Slots`, `SlotRuns`, `SlotPools`, `Seeds` |
| Leg schedules | `src/cascade.rs` | `Schedules`, `Legs` |
| Gate controller | `src/cascade.rs` | `Cascade` |
| Resident runner | `src/resident.rs` | `Tracks`, `Harvests`, `Preparations`, `PreparedQueues`, `Residents`, `PoolBoards`, `TopK` |
| Router | `src/combined.rs` | `Routing`, `FullChannels`, `Eligibility` |
| Batch stream | `src/streaming.rs`, `src/sampler.rs` | `Chunks`, `Streaming` |
| Lease draw | `src/draw.rs` | `ChaCha`, `KnownBlock`, `LeaseDraw` |
| Statistics | `src/cutoff.rs` | `MomentSums`, `Quantiles`, `Loosening` |
| Graph compilation | `src/topology.rs` | `Topology`, `LocalFields`, `Coloring` |
| Lease turns | `src/lease_turn.rs`, `src/lib.rs` | `LeaseTurns` |

`Wrappers`, `Counts` and `Sorting` hold shared definitions.

## How to read the model

*The device* is a record of unknown deterministic functions: `init` draws a state
from a seed, `sweep` sweeps it at one beta, `best` scores it. A result about the
device holds for every choice of them.

*Floats* are reals. A geometric beta ladder is any function that gives `n`
non-negative values when asked for `n`.

*The world outside a loop* (channels, cancellation, device completion, timing) is a
script: a finite list of lists of moves, one list consumed at each point where the
source could observe a change. A result about a loop holds for every script, so for
every prefix of every run. Cancellation only ever rises.

*Loops that drive a protocol* carry a record of what they did beside their own
variables: what was accepted, answered, sent. The invariants relate the two.

*Aliasing* matters in two places. A `BetaTable` is an object, and a slot keeps its
uploaded schedule exactly when the next job refers to the same one. Gate plans are
shared by the tickets that name them; they are entries of a list that tickets index,
so a change through one ticket is seen by all of them.

## Main results

1. **Slicing is invisible.** Whatever slice limits, slot and old storage a job meets,
   every readback shows what running each anneal alone and in one piece shows
   (`SlotRuns.SlicingIsInvisible`), the pool's own in-place loop does exactly that on
   all its slots at once (`SlotPools.SlotPool.Complete`), and observing changes
   nothing (`SlotRuns.ObservingChangesNothing`).
2. **A fresh leg is a lone anneal.** From the cascade's schedule builder through the
   pool: leg `k` of a job ends in the state of a separate job with that leg's seed and
   budget (`Legs.FreshLegIsLoneAnneal`).
3. **Lock-step.** Between harvests every live unit's slot stands at its ticket's stage,
   through whole runs over any configurations (`Harvests.Harvest`, `Residents.Run`), up
   to a ticket that does not fit its plan. `Cascade.AdmittedFits` says exactly when a
   ticket fits: always while `open_gates` is steady. The board the runner keeps is the
   one a real pool has after any calls (`PoolBoards.Drive`), so the pool never refuses
   the runner a step (`PoolBoards.SubmitFollows`).
4. **Exactly once.** On every way out of the resident loop the answered units are
   exactly the accepted ones, for a reason that held where it stopped; whoever got reads
   was read back from a slot, run by a fallback that did not fail, or empty; and a salt
   that was only screened is outranked by ten finished ones of its lease
   (`Residents.Run`). At a clean end the same account holds of the router (`Routing.Run`)
   and the batch stream (`Streaming.RunStream`), and in every state before it nothing is
   lost or done twice, duplicate replies included.
5. **The vector draw is the scalar draw** for any nonce, start word, length and set
   size (`LeaseDraw.VectorFill`, `LeaseDraw.DrawUnits`), under the key the nonce spells
   (`LeaseDraw.KeyBytes`), from a keystream fixed by a known block
   (`KnownBlock.ZeroKeyBlock`).
6. **Statistics.** One-pass moments are the batch moments (`MomentSums.Moments.Push`);
   P2 markers stay ordered, placed and between the extremes (`Quantiles.P2.Push`).
7. **Compiled rows keep the Ising field** (`LocalFields.LocalField`) and the greedy
   colouring is proper and tight (`Coloring.GreedyColor`, `Coloring.FewColours`).
8. **Lease turns** hand the intake channel contiguous blocks in line order
   (`LeaseTurns.Blocks`) and report every queued salt once (`LeaseTurns.ReportedExactly`).

## Where the code and its promises part

- `fill_h_j` promises that a mismatched edge list cannot crash (`src/topology.rs:332-337`).
  It can: when no establishing edge is in range the coupling list is empty, and an edge
  in range at a position the establishing list also has indexes past its end. `Topology.IndexableIff` is the exact condition, `Topology.MismatchIndexesPast`
  the input.
- The router takes an engine's channel to have room whenever its active list has
  (`src/combined.rs:653-673`). That holds while no engine answers a name more often
  than it took it, shared names or not (`FullChannels.HonestNeverFull`). Otherwise
  some run finds it full after sending exactly given names if and only if one of the
  last `limit` of them was sent before (`FullChannels.FullExactly`); so for some
  order of the accepted jobs if and only if two share a name and there are two more
  than the limit (`FullChannels.AcceptedExactly`). With a limit of one that is three
  jobs, two of one name: `FullChannels.SharedNameFillsChannel` is the run, in which
  the engine answers the first job again after the second has been sent.
- A chain-gated unit prepared under one `open_gates` and admitted under the other gets
  a schedule of 15 gates on a plan of 2 stages (`Cascade.ToggledOverruns`): the rebuild
  test compares stages only (`src/cascade.rs:608-657`). `Cascade.ToggledEitherWay` is
  the exact condition in each direction. Such a unit, with gates open, goes on until
  the audit test indexes one past its plan's stages (`Cascade.UnfitIndexesPast`). The
  other way round sixteen gates meet the chain plan's fifteen stages
  (`Cascade.ToggledOverrunsGated`), and a unit that passes every fixed gate gets to the
  same index (`Cascade.UnfitIndexesGated`).
- Leg seeds are meant to be distinct (`src/slots.rs:1372-1376`). Those after the first
  are (`Seeds.LegSeedsDiffer`), but at exactly one word, which each job seed
  determines, the draw gives the job's own seed again (`Seeds.OwnSeedAgain`).

## Model

| member | source | states |
|---|---|---|
| `SlotRuns.SlicingIsInvisible` | src/slots.rs:535-642 | For every job, slot, old storage and sequence of slice limits, the stored state and the list of readbacks of the run are those of the reference, in which each anneal runs in one piece from its own seed |
| `SlotRuns.StepState` | src/slots.rs:555-601 | One step, whether it restarts, starts or continues, leaves the reference state of its end position |
| `SlotRuns.StepsCover` | src/slots.rs:551-602 | The steps of a run cover positions 0 up to the current one in order, each sweep once, each step inside one leg; a step draws a new state exactly at an anneal's start, with that anneal's leg seed |
| `SlotRuns.FreshIsAnnealStart` | src/slots.rs:222-237 | The kernel starts over exactly when the position is where the leg's anneal starts: 0 for continuing legs, the leg's own start for fresh ones |
| `SlotRuns.StepStops` | src/slots.rs:560-590 | A step never runs over a checkpoint or observe point, writes output exactly when it ends on one, and flags it as an observe point exactly when it is no checkpoint |
| `SlotRuns.StepLength` | src/slots.rs:578-590 | A step is as long as the limit of its leg, the deep slice for fresh legs and the slice for the others, unless it ends on a stop before that |
| `SlotRuns.RunFinishes` | src/slots.rs:535-642 | Every step advances a live job, so a schedule of n sweeps is finished after at most n steps whatever the limits |
| `SlotRuns.ObservingChangesNothing` | src/slots.rs:560-590 | Two runs of one job, one observed and one not, sliced independently on different slots, hand back the same states at all checkpoints both reach |
| `SlotRuns.RunCheckpoints` | src/slots.rs:694-730 | The states handed back at a run's checkpoints are the reference states of its legs, one per passed checkpoint |
| `SlotRuns.NoLongSilence` | src/slots.rs:560-577 | Any window of OBSERVE_INTERVAL executed sweeps of an observe job contains a readback |
| `SlotRuns.StopIsReadBack` | src/slots.rs:694-730 | Every checkpoint and observe point the run has passed was read back |
| `SlotRuns.ReadbacksInOrder` | src/slots.rs:694-730 | Readbacks have strictly increasing positions, and each is the one due at its own position |
| `SlotRuns.OutputMeaning` | src/slots.rs:708-730 | An observe readback happens only off the checkpoints, at a multiple of the interval, and is never last; a checkpoint readback names its own checkpoint and is last exactly at the schedule's end |
| `Slots.AnnealAppend` | src/slots.rs:560-564 | Sweeping two pieces of a schedule one after the other is sweeping their concatenation |
| `Slots.StepBounds` | src/slots.rs:555-590 | A step has at least one sweep and ends no later than the next checkpoint |
| `Slots.AdvanceOk` | src/slots.rs:681-731 | A retired step keeps the job where a resident job can stand: between its last and its next checkpoint |
| `Slots.RunJob` | src/slots.rs:535-642 | A run of any number of steps stays inside the schedule |
| `SlotPools.SlotPool.constructor` | src/slots.rs:320-344 | A new pool is idle, empty and valid |
| `SlotPools.NewPool` | src/slots.rs:266-344 | A pool is made exactly when no dimension is zero, a state fits the device's fast memory and every buffer stays within 32-bit indices; else it is refused as too large |
| `SlotPools.RegionBytes` | src/slots.rs:299-309 | Multiplying out a buffer's size factor by factor, overflow included, refuses it exactly when the product exceeds the 32-bit bound |
| `SlotPools.OffsetFits` | src/slots.rs:298-319 | In such a buffer every position of every slot's region has a 32-bit offset |
| `SlotPools.SlotPool.MatchesPrepared` | src/slots.rs:346-369 | Whatever storage was verified before, the answer is that of comparing node count, read count and the whole edge list; the shortcut on shared storage never differs, and storage that matches is remembered |
| `SlotPools.SlotPool.AdmitPrepared` | src/slots.rs:453-488 | Admission succeeds exactly when the pool is idle, the schedule fits, the job's graph and prepared inputs are of the pool's nodes and edges, and a slot is empty; the job then starts in the first empty slot |
| `SlotPools.SlotPool.Upload` | src/slots.rs:490-518 | The upload takes the first empty slot and begins the job there; there is none exactly when it is refused, and then nothing changes |
| `SlotPools.SlotPool.WriteSlot` | src/slots.rs:501-517 | The slot holds the job's coefficients and its table, and the schedule region is left alone when the slot held that table already |
| `SlotPools.SlotPool.Release` | src/slots.rs:520-529 | Release empties exactly the named live slot of an idle pool; its device memory is left alone |
| `SlotPools.SlotPool.CommitStep` | src/slots.rs:535-642 | A command is submitted exactly when the pool is idle, has live jobs, both limits are positive and no job is past its last checkpoint; an idle empty pool submits nothing. Every step submitted is as long as the deep slice in a fresh leg and the slice in any other, each cut to what the device allows so many live threadgroups, and only a stop makes it shorter |
| `SlotPools.SlotPool.Complete` | src/slots.rs:666-732 | Executing and retiring a command keeps every slot standing where its own lone run stands, charges each its share, and reports exactly the slots that reached a stop, with their states |
| `SlotPools.SlotPool.TakeCheckpoints` | src/slots.rs:650-733 | What each device status does: nothing retired and a fault on failure, nothing on a command still pending, everything retired and reported on completion |
| `SlotPools.SlotPool.ReadsMany` | src/slots.rs:748-845 | Reads succeed exactly for an idle pool, a read count within its own, slots that are live and have output, and energies that pass the audit, which an empty request skips; results come in request order, each its slot's first reads, consecutive slots copied at once included |
| `SlotPools.StepStands` | src/slots.rs:535-642 | A step executed on the slot's own device memory, where other jobs ran before, is one more step of the job's lone run |
| `SlotPools.StepReports` | src/slots.rs:681-731 | What retiring a step does to a slot, and that a step that writes output reports the reference state and the right checkpoint |
| `SlotPools.IssuedNames` | src/slots.rs:551-602 | A command has one step for each live slot, in slot order, and for no other |
| `SlotPools.IssuedLengths` | src/slots.rs:560-590 | So is every step of a command |
| `SlotPools.IssueSteps` | src/slots.rs:551-602 | The source's loop builds those steps, each as long as the limit of its leg allows or ending on a stop, or refuses if a live job is past its last checkpoint |
| `SlotPools.RetireAll` | src/slots.rs:681-731 | The source's retire loop moves, charges and reports each slot of the command once |
| `SlotPools.RetireStep` | src/slots.rs:681-731 | One slot's bookkeeping, against its lone run |
| `SlotPools.FirstEmpty` | src/slots.rs:490-518 | The slot found is the first empty one |
| `SlotPools.SharesReconcile` | src/slots.rs:169-171 | The shares of a command's device time sum to it exactly and differ by at most one |
| `Seeds.SlotSeed` | src/slots.rs:900-902 | A step's seed is never zero |
| `Seeds.SlotSeedIs` | src/slots.rs:900-902 | A step's seed is its two halves combined, or one where they are equal |
| `Seeds.KnownSeeds` | src/slots.rs:904-914 | The seeds drawn under seed zero are the known first outputs of SplitMix64 |
| `Seeds.LegSeedsDiffer` | src/slots.rs:904-914 | Under one job seed, two legs after the first have the same seed only if they are the same leg |
| `Seeds.OwnSeedAgain` | src/slots.rs:904-914 | A later leg has the job's own seed if and only if its number is the one word that undoing the mix gives |
| `Seeds.MixUndone` | src/slots.rs:910-913 | The mix is a bijection: each of its steps can be undone |
| `Legs.FreshLegIsLoneAnneal` | src/slots.rs:222-237 | For a job prepared by the schedule builder, under any slicing, the state at a fresh leg's checkpoint is the final state of a separate job with that leg's seed and budget, itself under any slicing on any slot |
| `Legs.ContinuingLegsAreOneAnneal` | src/slots.rs:222-237 | At a continuing leg's checkpoint the state is one uninterrupted anneal of that stage's sweep count from the job's seed |
| `Legs.LoneSeed` | src/slots.rs:900-914 | The lone job of a leg runs under the leg's own seed |
| `Legs.PreparedValid` | src/cascade.rs:1005-1065 | A prepared job passes the pool's schedule check and has one checkpoint per budget |
| `Schedules.SegmentsValid` | src/cascade.rs:1005-1065 | A schedule laid out from strictly increasing stages passes the pool's check exactly when the job has a positive budget |
| `Schedules.SegmentsSplit` | src/cascade.rs:1016-1063 | Continuing checkpoints sit at the stage sweep counts, and the fresh legs are exactly the budgets above 256; the budgets are the stages used and then the job's own |
| `Schedules.FreshLegIsStandard` | src/cascade.rs:1023-1063 | Every fresh leg's entries are the standard schedule of its own budget, for any sweeps per beta |
| `Schedules.StandardAt` | src/cascade.rs:1023-1035 | Sweep i of a standard anneal has the beta of rung i / sweeps-per-beta of a ladder of as many rungs as fit its budget, at least one, or of the last rung |
| `Schedules.ReheatLeg` | src/cascade.rs:1038-1059 | Where 0.25 lies strictly inside the beta range, every continuing leg after the first is a ladder from 0.25; elsewhere the continuing legs are one standard anneal |
| `Schedules.SegmentSchedule` | src/cascade.rs:1005-1065 | The source's loops build those segments |
| `Schedules.AppendStandard` | src/cascade.rs:1023-1035 | The rung-by-rung loop appends exactly a budget's worth of betas, entry i from rung i / sweeps-per-beta, the last rung held to the end |
| `Schedules.BuildContinuing` | src/cascade.rs:1038-1059 | The reheat loop builds the continuing legs: the first leg's standard anneal, then a reheat ladder up to each further stage |
| `Schedules.AppendFresh` | src/cascade.rs:1060-1063 | The fresh-leg loop appends each leg and a checkpoint where it ends |
| `Schedules.NoBudgetNoSchedule` | src/cascade.rs:1005-1065 | Without a budget the schedule is empty |
| `Schedules.StagesBelow` | src/cascade.rs:1010-1015 | The stages used are the positive ones below the budget, up to the first that is not |
| `Schedules.FreshFrom` | src/cascade.rs:1016-1019 | The first fresh leg is the first budget above 256 |
| `Schedules.ScheduleCache.Prepare` | src/cascade.rs:850-905 | Cached or built, the schedule is the one its key alone determines, is valid, and a hit returns the same shared table; only a job without a budget is refused, and a refusal leaves the cache alone |
| `Schedules.SettingsStayValid` | src/cascade.rs:220-269 | After any sequence of configuration messages, chain-gated or not, stages in force strictly increase and the keep denominators are ordered |
| `Schedules.MergeValid` | src/cascade.rs:220-269 | One message keeps valid settings valid, whatever it holds |
| `Schedules.MergeTakes` | src/cascade.rs:220-269 | Each key of a message that is present and acceptable takes its value, the three keep denominators all together, and every other setting keeps its own |
| `Schedules.EffectiveIs` | src/cascade.rs:187-204 | The chain plan is in force for chain-gated units while gates are not open, and what is configured for all others |
| `Cascade.AdmittedFits` | src/cascade.rs:608-657 | An admitted ticket's gates are all stages of the plan it names if and only if `open_gates` did not flip a chain-gated unit's stages in between, or the stages below the budget of its rebuilt schedule still fit the current plan |
| `Cascade.ToggledOverruns` | src/cascade.rs:614-656 | A flip that breaks it: 15 gates on a plan of 2 stages |
| `Cascade.ToggledEitherWay` | src/cascade.rs:608-657 | After a flip to open gates a ticket has one gate per chain stage below its budget and fits exactly when the configured stages are no fewer; after a flip to chain gates it has one per configured stage below its budget and fits exactly when these are at most fifteen |
| `Cascade.UnfitIndexesPast` | src/cascade.rs:413-426 | Under open gates a ticket that does not fit reaches a checkpoint whose transition has no entry in its plan's vectors: the audit test indexes exactly one past their end |
| `Cascade.ToggledOverrunsGated` | src/cascade.rs:614-656 | A flip the other way that breaks it: 16 gates on the chain plan of 15 stages |
| `Cascade.UnfitIndexesGated` | src/cascade.rs:663-722 | On a chain-gated plan a ticket that does not fit and passes every fixed gate reaches a checkpoint with no gate and no stage of its own, one past the audit vectors' end: a failed cutoff there, or the next observation, indexes it |
| `Cascade.CheckpointsAreLaidOut` | src/cascade.rs:1005-1065 | The checkpoints a ticket counts on are those its schedule has |
| `Cascade.RefreshedOk` | src/cascade.rs:527-546 | Changing settings keeps every plan well formed and every ticket fitting |
| `Cascade.PlannedOk` | src/cascade.rs:622-642 | A plan for a new topology or new stages keeps earlier tickets fitting, and is a plan for the stages in force |
| `Cascade.CheckedFits` | src/cascade.rs:663-722 | A gate decision moves the ticket one stage exactly when the unit goes on, stays inside its plan's vectors, and disturbs no other ticket, even of the same plan |
| `Cascade.CheckedShape` | src/cascade.rs:663-722 | A decision touches the ticket's own plan only, in one of the ways its branches allow |
| `Cascade.CheckedDecides` | src/cascade.rs:663-722 | For a ticket of the current topology, exactly what a gate does: it ends below its target, goes on at it, and beyond it, or without one, goes on under open gates; else a fixed gate is passed exactly by what does not exceed it, and an adaptive one exactly when the cutoff is met or an audit of a rated transition was drawn, which alone marks the ticket audited. A ticket of another topology stops unchanged |
| `Cascade.TransitionMade` | src/cascade.rs:724-743 | An observed transition adds an unaudited energy to the newest ones kept, counts an audited one when there is something to compare, or notes an uncalibrated one, and touches no other entry |
| `Cascade.CheckedRecords` | src/cascade.rs:663-743 | What a decision leaves in the plan: the transition just made, the cutoff it asked for, the audits drawn, and nothing for another topology |
| `Cascade.FinishedRecords` | src/cascade.rs:755-779 | What finishing a unit leaves in its plan, its round and the range of its round |
| `Cascade.FinishedFits` | src/cascade.rs:755-779 | Finishing a unit keeps every plan, round and ticket fitting |
| `Cascade.EnteredFits` | src/cascade.rs:747-752 | Entering a round keeps every ticket fitting |
| `Cascade.RangeIsExact` | src/cascade.rs:747-779 | The kept energy range is exactly that of the units finished in the current round since it was entered |
| `Cascade.RangeFollows` | src/cascade.rs:747-779 | The controller's round and range are those of the events it has seen |
| `Cascade.AuditSupported` | src/cascade.rs:413-426 | The audit log grows inside the plan's vectors |
| `Cascade.ObserveTransition` | src/cascade.rs:724-743 | An observed transition keeps the plan well formed, the kept window bounded |
| `Cascade.Controller.constructor` | src/cascade.rs:481-494 | A new controller is well formed |
| `Cascade.Controller.Refresh` | src/cascade.rs:527-546 | The method changes settings as `RefreshedOk` says, starting a new plan exactly when stages or keep denominators changed and updating the current one otherwise, and leaves the controller well formed |
| `Cascade.Controller.Replan` | src/cascade.rs:622-642 | The method starts a new plan and topology epoch on a new graph, a new plan on stale stages or gates, and otherwise keeps the shared one |
| `Cascade.Controller.AdmitPrepared` | src/cascade.rs:608-657 | The method issues the ticket `AdmittedFits` is about and hands back the schedule it is for, rebuilt exactly when the stages changed |
| `Cascade.Controller.Checkpoint` | src/cascade.rs:663-722 | The method decides as `CheckedFits` and `CheckedDecides` say, every vector index inside the ticket's own plan, and the new ticket fits |
| `Cascade.Controller.Finish` | src/cascade.rs:755-779 | The method records a unit's end as `FinishedFits` and `RangeFollows` say; tickets keep fitting |
| `Cascade.Controller.EnterRound` | src/cascade.rs:747-752 | The method enters a round as `EnteredFits` and `RangeFollows` say: only a later one, and then the range starts empty |
| `Tracks.CommandProjects` | src/slots.rs:650-733 | What the runner sees of a completed command, the checkpoint counters and the report, is all it needs: the counters move exactly as the report says and no slot was past its end |
| `Tracks.DoneOnBoard` | src/slots.rs:555-559 | The pool refuses a step exactly when a counter is past its last checkpoint |
| `Tracks.ReportNames` | src/slots.rs:681-731 | A report names each stopped slot once, in slot order |
| `PoolBoards.Drive` | src/slots.rs:440-733 | For any sequence of admissions, releases, steps and report takings a real pool serves, its board and flags after it, and every answer it gave, are those computed on boards alone from some happenings |
| `PoolBoards.Serve` | src/slots.rs:440-733 | So for one call |
| `PoolBoards.Retire` | src/slots.rs:650-733 | And for taking a report |
| `PoolBoards.SubmitFollows` | src/resident.rs:1492-1510 | In every state the runner reaches without a fault, a real pool with its board is never refused a step: one is sent exactly when a unit is live, and moves the board as the runner moves it |
| `PoolBoards.PlaceFollows` | src/resident.rs:1436-1483 | Placing a unit moves the runner's board as admitting its job moves a real pool's, into the same slot |
| `PoolBoards.TakeFollows` | src/resident.rs:339-350 | The report the runner judges and the board it goes on with are those a real pool gives for the same happenings |
| `PoolBoards.ReleaseFollows` | src/slots.rs:520-529 | A live slot the runner frees is one a real pool releases |
| `PoolBoards.TrackAgrees` | src/cascade.rs:1005-1065 | A schedule laid out for a ticket has one checkpoint more than the ticket has gates, so the track placed is the admitted job's |
| `Harvests.Harvest` | src/resident.rs:339-500 | A harvest only answers live units, each once; screens only salts, and only ones that ten finished salts of their lease are no worse than; cancels only units nobody waits for; offers a lease only energies its live salts reported; answers with reads only units whose slots were due to be read back, and none when the device fails. Unless the device fails, every slot meets the fate its report says: abandoned units leave; a slot with nothing to report is untouched; an observe readback frees the slot exactly when it beats the target; the last checkpoint frees it; any other checkpoint frees it or moves it on by one. Slots and tickets are then in step, ready for the next command |
| `Harvests.JudgeEntry` | src/resident.rs:368-460 | One report entry is judged by its unit's fate: what is read back, screened out or goes on, the answers that gives, and what its lease is offered |
| `Harvests.JudgeGate` | src/resident.rs:416-458 | At a gate a salt goes on, is read back when it beat its target or enters its lease's best, or is screened out; if it does not go on its lease is offered its energy. The controller and the ticket are left as its decision leaves them, and a unit screened out ends there with its energy |
| `Harvests.ScreenedOutranked` | src/resident.rs:440-458 | A salt screened out is outranked by its lease's best from then on |
| `Harvests.OutrankedStays` | src/resident.rs:96-113 | Whatever is offered later |
| `Harvests.JudgeReport` | src/resident.rs:368-460 | All entries judged: an observed slot is to be read back exactly when it beats its target, a last checkpoint always, slots not in the report are untouched, and every live slot not to be read back is in step again |
| `Harvests.FateMeans` | src/resident.rs:386-460 | What a readback means, exactly: an observe readback is read back when it beats the target and else goes on; the last checkpoint is read back; at a gate a unit goes on exactly when the decision says so, and otherwise is read back exactly when it beat the target or enters the best of its lease, and screened out if not |
| `Harvests.CheckedFinishes` | src/cascade.rs:674-683 | A gate ends the work of a ticket exactly where the target of the current topology is beaten |
| `Harvests.DropAbandoned` | src/resident.rs:349-360 | Exactly the abandoned units leave first, each answered as cancelled; every other slot is untouched |
| `Harvests.ReadBack` | src/resident.rs:473-498 | Exactly the finished slots are released; their units are answered in order, as cancelled when nobody waits any more and else with reads, and the controller is told of each end in turn, with its best energy or without |
| `Harvests.DoneReadOff` | src/resident.rs:473-498 | A slot that is read back stood at a checkpoint, or at an observe point below its target, in what the device reported |
| `Harvests.OneRead` | src/resident.rs:473-498 | One finished slot released, its unit answered and its end recorded, keeps everything still to be read back due |
| `Harvests.InStepSteppable` | src/resident.rs:409-420 | In step, no live slot is past its last checkpoint and every stage is below the maximum |
| `Preparations.NeverBlocks` | src/resident.rs:1062-1097 | With at most PREP_BOUND units outstanding every worker's queue holds at most a worker's share of them, so a send never waits |
| `Preparations.AnsweredOnce` | src/resident.rs:933-1012 | A worker's answer goes into an empty reply channel, and no other worker has that unit |
| `Preparations.OldestMoves` | src/resident.rs:1099-1101 | The oldest unit's worker can always bring it one step nearer, so `next` is never stuck while workers live |
| `Preparations.ChooseFair` | src/resident.rs:1017-1060 | Which input the fill takes from, and when it notices the end |
| `Preparations.Alternate` | src/resident.rs:1017-1060 | While both inputs have work waiting, jobs and salts alternate strictly |
| `Preparations.SubmittedOk` | src/resident.rs:1062-1097 | Round-robin submission keeps every unit in exactly one place |
| `Preparations.WorkedOk` | src/resident.rs:933-1012 | So does any worker's next action, in any interleaving |
| `Preparations.PoppedOk` | src/resident.rs:1099-1101 | So does taking the oldest |
| `Preparations.Preparation.constructor` | src/resident.rs:934-1012 | Preparation starts empty |
| `Preparations.Preparation.Submit` | src/resident.rs:1062-1097 | Submission below the bound has room in the worker's queue and adds one unit |
| `Preparations.Preparation.Work` | src/resident.rs:934-1012 | Any worker may act at any time |
| `Preparations.Preparation.Next` | src/resident.rs:1099-1101 | Units come out in submission order, whatever the workers did; nothing comes out exactly when nothing is outstanding |
| `PreparedQueues.Drive` | src/resident.rs:1062-1101 | For any sequence of submissions and takings, with any worker actions between and during them, the eight worker queues hand out what one queue would, in order, and no submission below the bound waits |
| `PreparedQueues.Serve` | src/resident.rs:1062-1101 | So for one call |
| `PreparedQueues.FillFollows` | src/resident.rs:1017-1060 | Whatever the workers do, filling leaves in preparation exactly the runner's queue, and never meets a full one |
| `PreparedQueues.TakeFollows` | src/resident.rs:1099-1101 | The unit the runner takes is the one the workers hand out, and what stays is the runner's queue |
| `PreparedQueues.WorkersUnseen` | src/resident.rs:933-1012 | Workers' actions change nothing the runner sees |
| `Residents.Run` | src/resident.rs:1241-1556 | For any valid configurations: until the loop ends, live, prepared, held and answered units are together the accepted ones, and slots and tickets are in step. It ends for a reason its last state shows: the input is over and nothing is queued, held or live; the output is closed; a fault is recorded; there were no workers. Then the answered units are exactly the accepted ones, the inputs are empty, and the last answers are those of what was live, in preparation, held and offered, in that order: cancelled, or failed where the unit is refused and still waited for. Only salts are screened, each outranked by its lease's best. Whoever is answered with reads was in a slot due to be read back, was run by a fallback that did not fail, or is empty. A ticket that does not fit its plan, impossible while `open_gates` is steady, is where the account stops |
| `Residents.Turn` | src/resident.rs:1277-1516 | One round of the loop keeps all that. Preparation is filled first, the pool whose turn it is harvested, a new configuration taken up exactly when the window is over, and admission goes on as far as it can; the loop goes on exactly if something is left to do, and then that pool has its live slots in flight and it is the other's turn |
| `Residents.StepAndSwap` | src/resident.rs:1491-1511 | The round's last part: a closed output or a failed command ends the loop, and otherwise the live slots are in flight and the other pool is next |
| `Residents.DoneAnswered` | src/resident.rs:1486-1491 | Where the input has ended and nothing is queued, held or live, every accepted unit already has its answer |
| `Residents.Fill` | src/resident.rs:1017-1060 | Filling keeps order, adds exactly what it accepts, stops at the bound or when both inputs are empty, and then has noticed the end of the jobs |
| `Residents.Feed` | src/resident.rs:1017-1060 | One unit taken from the input whose turn it is, jobs and salts alternating while both wait, is the next in preparation with the settings in force |
| `Residents.Place` | src/resident.rs:1436-1483 | With a matching pool and a free slot the unit goes to the first one, at checkpoint 0 with one checkpoint more than its ticket has gates, its ticket the one admission under its round gives, if that ticket fits its plan; without such a pool or slot it is refused and the pools are untouched |
| `Residents.IssueTicket` | src/resident.rs:1436-1451 | A salt's round is entered before its ticket is issued; the ticket starts at stage 0, has gates only for a salt, disturbs no other, and fits its plan exactly unless gates were switched under it and left it more than the plan has |
| `Residents.AdmitHeld` | src/resident.rs:1356-1483 | What becomes of the held unit, exactly: cancelled when abandoned; failed when preparation failed; answered with reads when it needs the fallback and has no nodes; waiting exactly when it needs a fallback or other pools and slots are still live; else the fallback is run, or, in new pools where it needs them, it is placed, and failed when these cannot be made. Only a faulting fallback ends the run |
| `Residents.RunFallback` | src/resident.rs:1180-1235 | A unit run alone is cancelled when nobody waits any more or the output closed, failed when the run failed and else answered with its reads; a device failure is a fault whoever waits |
| `Residents.AdmitAll` | src/resident.rs:1332-1484 | Admission goes on until the pool is full, nothing is queued or offered, or a unit has to wait for the pools to drain |
| `Residents.HoldNext` | src/resident.rs:1340-1355 | The unit to admit is the one held, or after filling the oldest in preparation, with what preparation made of it under its own settings; without one the pool is full or nothing is left in preparation or the inputs |
| `Residents.HarvestTurn` | src/resident.rs:1282-1309 | The pool whose turn it is is harvested, the other left alone; every slot meets the fate the harvest describes, or the run faults; what is delivered now was in a slot due to be read back |
| `Residents.Reconfigure` | src/resident.rs:1310-1329 | A new configuration keeps everything in step |
| `Residents.CommitStep` | src/resident.rs:1492-1510 | A step goes out exactly when the pool has live slots, and none of them is past its last checkpoint; a refused command is a fault |
| `Residents.TicketFits` | src/cascade.rs:608-657 | For any valid settings an admitted ticket is at stage 0 and fits its plan exactly unless gates were switched under it and left it more than the plan has; a stream job's has no gates, and steady gates always fit |
| `Residents.Cleanup` | src/resident.rs:1518-1556 | Whatever state the loop leaves, after cleanup every accepted unit has been answered once; the answers added are, in order, those of both pools' live units, of what is in preparation, of the unit held and of what the inputs hold, which was accepted for that; the inputs are drained |
| `Residents.AnswerLive` | src/resident.rs:1518-1537 | Every live unit of a pool is answered once, by slot: failed when a fault ended the run and somebody still waits, and else cancelled |
| `Residents.RefuseAll` | src/resident.rs:1130-1179 | Everything waiting in one place is refused in order, each once, as cancelled when nobody waits for it and else as failed; the other places are left alone |
| `Residents.MovesKeep` | src/resident.rs:1277-1516 | Nothing the outside does breaks the invariant |
| `TopK.LeaseTopK.Offer` | src/resident.rs:96-113 | After any sequence of offers the array holds the specification's list; an offer enters exactly when fewer than ten are held or it is strictly below the worst, which is what the harvest asks |
| `TopK.LeaseTopK.Place` | src/resident.rs:96-113 | The in-place shift puts an energy in its place |
| `TopK.LeaseTopK.PartitionPoint` | src/resident.rs:96-113 | The binary search finds the first position above the energy |
| `TopK.LeaseTopK.constructor` | src/resident.rs:85-90 | A new lease holds none |
| `TopK.BestAreSmallest` | src/resident.rs:72-95 | The kept list is sorted, has ten entries or all, and every dropped offer is no better than any kept one |
| `TopK.BestStep` | src/resident.rs:96-113 | Keeping only ten loses nothing: one more offer changes the kept list as it changes the full one |
| `TopK.EntersOrBeaten` | src/resident.rs:93-113 | An offer that does not enter is no better than any of the ten kept |
| `TopK.BeatenStays` | src/resident.rs:93-113 | And stays so after any further offer |
| `TopK.OrderedIsSort` | src/resident.rs:96-113 | The full list is the offers, sorted |
| `Routing.Run` | src/combined.rs:506-737 | In every state of every run pending plus active jobs stay within the credits and each engine within its limit; accepted jobs are pending, sent or answered directly, each once, and what is sent or answered directly is active, answered or lost, whatever duplicates an engine sends; with distinct names, or while no engine answers a name more often than it took it, no channel is found full; on a clean end the answers are exactly the accepted jobs. The loops compute the run `FullChannels` reasons about |
| `Routing.ChannelHasRoom` | src/combined.rs:653-673 | Below its limit an engine's channel has room, unless a name was answered more often than taken and one of the last names sent was sent before them |
| `Routing.FullMeans` | src/combined.rs:514-520 | A channel holding more than the active list holds a name that was taken before and answered more often than taken, and one of the last names sent was sent before them |
| `Routing.FullOnlyOnDuplicates` | src/combined.rs:653-688 | With distinct names no channel is found full |
| `FullChannels.SharedNameFillsChannel` | src/combined.rs:548-673 | A run that finds the channel full with three jobs, the fewest it takes, script and all: two jobs of one name are sent, the second after the first is answered, the engine answers the first again, and a third job finds its channel full |
| `FullChannels.FullExactly` | src/combined.rs:653-688 | Some run first finds an engine's channel full after sending exactly these names if and only if one of the last `limit` was sent before them |
| `FullChannels.RepeatsFill` | src/combined.rs:653-688 | Names offered to one engine in turn can find its channel full before they end if and only if a name repeats, a further one follows, and more than `limit` names come after the repeated one's first place |
| `FullChannels.AcceptedExactly` | src/combined.rs:506-737 | Some run accepts exactly these jobs and finds an engine's channel full if and only if two share a name and there are at least two more than its limit |
| `FullChannels.HonestNeverFull` | src/combined.rs:506-737 | In no run is a channel found full while every engine answers no name more often than it took it, shared names or not |
| `FullChannels.FullRun` | src/combined.rs:506-737 | The script that fills the channel for any such names, and its run through the loop's own steps |
| `FullChannels.RunInv` | src/combined.rs:506-737 | Every run keeps the invariant |
| `Routing.MoveKeeps` | src/combined.rs:506-737 | Taking, answering (also twice), exiting, cancelling and configuring keep the invariant |
| `Routing.MovesKeep` | src/combined.rs:506-737 | So does any list of such moves |
| `Routing.DeliveredKeeps` | src/combined.rs:551-582 | A reply removes one active job of its name, or is ignored if there is none |
| `Routing.DeliveredEngine` | src/combined.rs:551-582 | A reply is passed on exactly when a job of its name is active, and only a fatal one takes its engine, and only it, out of service |
| `Routing.DeadGetsNothing` | src/combined.rs:653-688 | An engine out of service gets no further job |
| `Routing.OrphanedKeeps` | src/combined.rs:584-603 | A job of an engine that has gone is answered once |
| `Routing.AcceptedKeeps` | src/combined.rs:610-620 | Accepting a job takes a credit |
| `Routing.ForwardedKeeps` | src/combined.rs:656-688 | Forwarding keeps the invariant, also when the engine is found gone |
| `Routing.ForwardedMeans` | src/combined.rs:656-688 | A job forwarded joins the channel, active jobs and sent names of its engine; with its sender or the engine gone it goes to the back of the queue and the engine out of service; with the channel full it only goes back |
| `Routing.RoutedKeeps` | src/combined.rs:623-709 | So does routing the front job, whichever way it goes |
| `Routing.Decides` | src/combined.rs:628-708 | When a job is cancelled, refused, unavailable, sent to the matrix engine, to the GPU, or kept waiting |
| `Routing.JudgedFresh` | src/combined.rs:638-652 | A remembered eligibility is the one a fresh look under the current configuration gives |
| `Routing.Route` | src/combined.rs:623-709 | One pass looks at every pending job and leaves each judged |
| `Routing.Drain` | src/combined.rs:548-606 | All ready replies are taken; a fatal one takes its engine out of service; a gone engine ends with nothing active; nothing is accepted, sent or answered directly meanwhile and the other engine is untouched |
| `Routing.Retire` | src/combined.rs:584-603 | Every job of a gone engine is answered as stopped until the output closes; nothing else changes |
| `Routing.CleanEnd` | src/combined.rs:710-715 | With nothing pending, active or lost the answers are exactly the accepted jobs |
| `Eligibility.Eligible` | src/combined.rs:342-408 | With the degree shortcut and the one-entry cache the answer is that of always checking fresh facts and every coupling |
| `Eligibility.SomeEngineEnabled` | src/combined.rs:256-266 | A valid configuration is an error exactly when it leaves no engine for the kernel |
| `Eligibility.ShortcutIsEnough` | src/combined.rs:383-406 | Within the structural degree limit only the coupling values need a look |
| `Eligibility.CheckCouplings` | src/combined.rs:390-406 | The nonzero-degree loop, which leaves early, decides that every coupling is a unit and no node has too many nonzero ones |
| `Eligibility.NonzeroAtMost` | src/combined.rs:383-406 | Nonzero degree is at most degree |
| `Eligibility.EdgeFactsOf` | src/combined.rs:292-313 | The single pass computes the three facts as defined on the whole edge list |
| `Eligibility.Visit` | src/combined.rs:292-313 | One edge of that pass |
| `Eligibility.OneMore` | src/combined.rs:292-313 | What one more edge does to every fact |
| `Eligibility.FactsCache.constructor` | src/combined.rs:319-324 | An empty cache is valid |
| `Eligibility.FactsCache.Get` | src/combined.rs:326-337 | Cached or not, the facts are those of the list asked about, which is the one remembered next |
| `LocalFields.MaxCsrDegree` | src/sampler.rs:951-964 | The sampler's degree is the largest number of incident edges, a self-loop counted once |
| `LocalFields.LongestRow` | src/sampler.rs:951-964 | The longest compiled row is that degree, and it is at most 20 exactly when every node's degree is |
| `LocalFields.CountDegrees` | src/sampler.rs:951-964 | Endpoint counting gives each node's degree |
| `LocalFields.LocalField` | src/topology.rs:255-307 | For every graph, duplicate edges, self-loops and skipped edges included, and every spin vector, a row's coefficient-weighted sum is the sum over the node's incident edges |
| `Topology.Build` | src/topology.rs:255-307 | The source's loops compile the edges into rows |
| `Topology.Bijection` | src/topology.rs:255-307 | Half-edges and positions are in bijection through the recorded edge positions, row by row |
| `Topology.IncidentOnce` | src/topology.rs:255-307 | A row lists each of its half-edges once and nothing else |
| `Topology.Adjacency` | src/topology.rs:255-307 | The adjacency loop collects exactly those |
| `Topology.SortRow` | src/topology.rs:255-307 | A sorted row is the row, by neighbour |
| `Topology.LayRow` | src/topology.rs:255-307 | Laying down one row records each of its half-edges where it stands |
| `Topology.EdgePositions` | src/topology.rs:255-307 | The two positions of an edge hold its two half-edges and no other edge |
| `Topology.IndexableIff` | src/topology.rs:398-420 | A fill with any edge list stays inside the coupling list if and only if that list is non-empty or, at every position both edge lists have, the filling edge is out of range |
| `Topology.EstablishingIndexable` | src/topology.rs:398-420 | A fill with the establishing edges stays inside |
| `Topology.MismatchIndexesPast` | src/topology.rs:332-337 | A mismatched list that indexes past the end, against the documented promise |
| `Topology.Quantize` | src/topology.rs:314-316 | A value is cut to its whole part towards zero where that is a signed byte, and to the nearest bound elsewhere |
| `Topology.FillInspecting` | src/topology.rs:398-420 | The fill gives each position its own edge's coupling, quantizes every field, and tells the inspector exactly whether the edges agree |
| `Topology.FillMatching` | src/topology.rs:380-396 | Coefficients come out exactly when nodes and edges match, and are then the right ones |
| `Topology.FillCouplings` | src/topology.rs:368-376 | With loop-free edges in range the fast fill gives each position its own edge's value |
| `Topology.FillsAgree` | src/topology.rs:360-376 | Both fills of the same couplings are equal |
| `Coloring.GreedyColor` | src/topology.rs:61-98 | Every node gets a colour, neighbours differ, and each colour is forced: every smaller one is met among the neighbours |
| `Coloring.ColorNode` | src/topology.rs:76-95 | One node's turn keeps that and leaves the scratch array clear |
| `Coloring.Mark` | src/topology.rs:77-86 | The scratch array marks exactly the neighbours' colours |
| `Coloring.Unmark` | src/topology.rs:92-94 | And is cleared again |
| `Coloring.ColourKeepsProper` | src/topology.rs:80-91 | An unmarked colour keeps the colouring proper |
| `Coloring.ColourKeepsTight` | src/topology.rs:80-91 | The first unmarked colour keeps it tight |
| `Coloring.DegreeOrder` | src/topology.rs:70-72 | Nodes come in order of falling degree, each once |
| `Coloring.CompiledAdjacent` | src/topology.rs:255-307 | Compiled rows are symmetric, as the colouring needs |
| `Coloring.EdgesSplit` | src/topology.rs:61-98 | The endpoints of each edge in range that is no self-loop get different colours |
| `Coloring.FewColours` | src/topology.rs:61-98 | At most the largest degree plus one colours are used and no class is empty |
| `Coloring.ColorBlocks` | src/topology.rs:100-123 | Starts, counts and nodes list every node exactly once, grouped by colour |
| `Coloring.Group` | src/topology.rs:100-123 | Grouping lists the nodes of each colour in order |
| `Streaming.RunStream` | src/streaming.rs:519-572 | At every moment at most two batches exist with one unfinished chunk each, chunks are submitted in plan order, reads come only from batches whose whole plan completed, only cancelled jobs are answered cancelled; a clean end has answered every dequeued job once |
| `Streaming.Round` | src/streaming.rs:541-571 | One round: the oldest batch is taken out; a lone one gets a second beside it without waiting for work, unless throttled, or why not; the oldest is advanced; and when none is left in flight the next one is waited for |
| `Streaming.FormAndCommit` | src/streaming.rs:580-672 | A non-empty batch of one key becomes the newest in flight, or why not; nothing is dequeued while the device is to be left alone; jobs are lost only to a closed output |
| `Streaming.Gather` | src/streaming.rs:596-667 | The batch around one job: filled with its key up to its share of the device, time and input permitting; then rid of exactly the cancelled jobs; and prepared if any is left |
| `Streaming.FillOne` | src/streaming.rs:458-496 | The input's next job leaves it: turned away for the reason it is, added when its key matches, or kept for later |
| `Streaming.Prepare` | src/streaming.rs:614-667 | The jobs in hand become the newest batch with at most its first chunk submitted, or are all rejected with what refused the encoding, capacity or a device fault, or are lost to a closed output |
| `Streaming.LaunchHand` | src/streaming.rs:633-667 | The jobs in hand are the newest batch; its plan covers the schedule in chunks as long as the limit allows, and its first chunk is submitted unless a job is cancelled |
| `Streaming.NextSeed` | src/streaming.rs:424-448 | The next job for a batch is not empty, not cancelled and within capacity; what was dequeued for it, the stashed job first, is in order the jobs answered with what turned them away and then that job; what each ending means |
| `Streaming.Turned` | src/streaming.rs:424-448 | A job gets no batch exactly when its watermark is cancelled, it is empty, or it has too many nodes, and is told so in that order |
| `Streaming.FillBatch` | src/streaming.rs:458-496 | Filling goes on until the cap is reached, time is up, a job of another key is kept for later, or the input is empty. What it took from the input is, in order, the jobs turned away, with what turned them away, the jobs added, which share the key, and the one kept |
| `Streaming.CommitNext` | src/sampler.rs:709-731 | A chunk goes out exactly after its predecessor completed, the plan has more and no job is cancelled; otherwise the batch is whole, failed or cancelled |
| `Streaming.Advance` | src/streaming.rs:543-565 | The oldest batch, its last chunk completed or failed as the device says, is back in flight with exactly its next chunk if it completed, or has ended, answered for the reason there was or harvested whole; a closed output drops everything and answers nothing |
| `Streaming.FinishBatch` | src/streaming.rs:678-761 | A partly executed batch is never harvested: a failed one answers every job as faulted, a cancelled one as cancelled, and only a whole one is harvested and its reads delivered, or its jobs rejected with what refused the harvest |
| `Streaming.DeliverAll` | src/streaming.rs:743-760 | Reads are delivered in order, all of them unless the output closes |
| `Streaming.AnswerAll` | src/streaming.rs:692-741 | Each job of a batch gets the same answer once, in order |
| `Streaming.AllCancelled` | src/streaming.rs:714-725 | Jobs of one key share a watermark, so one cancelled means all are |
| `Streaming.Purge` | src/streaming.rs:614-632 | Exactly the jobs of cancelled watermarks leave, in order, as cancelled; the others keep their order |
| `Streaming.AllAnswered` | src/streaming.rs:519-572 | With nothing held and the output open the answers are exactly the dequeued jobs |
| `Chunks.MatchesIsSameKey` | src/streaming.rs:245-276 | A key matches a job exactly when the job has that key, and then the watermarks agree |
| `Chunks.ChunkPlan` | src/sampler.rs:338-357 | The plan is non-empty, consecutive and covers the whole schedule; every chunk but the last is exactly as long as the limit allows |
| `Chunks.EachBetaOnce` | src/sampler.rs:338-357 | Every position of the schedule is in exactly one chunk |
| `Chunks.ScaleBudget` | src/streaming.rs:166-178 | A scaled budget is never zero and never above the nominal one, which a scale of one or more leaves alone |
| `Chunks.BudgetIsNearest` | src/streaming.rs:166-178 | Below one it is the nearest whole number to the product, halves upwards, but at least one |
| `LeaseDraw.VectorFill` | src/draw.rs:101-133 | For any key, start word, length and set of 2, 4, 8 or 16 values the vector fill writes at i the value chosen by keystream word first + i, partial first and last passes and counter wrap included |
| `LeaseDraw.Fill` | src/draw.rs:48-64 | Whatever path it takes, the fill writes those values, and fails exactly for a non-empty output and an empty set |
| `LeaseDraw.DrawUnits` | src/draw.rs:29-44 | Fields use words 0 up to the node count, couplings the words after; errors as documented |
| `LeaseDraw.KeyBytes` | src/draw.rs:66-74 | Every byte of the nonce is a byte of the key, in order, least significant first within a word |
| `ChaCha.StartWords` | src/draw.rs:147-186 | The start state holds the key in words 4 to 11 and the number of the block in words 12 and 13, low half first |
| `ChaCha.StreamWord` | src/draw.rs:46-64 | Keystream words come block by block, sixteen of each, the number of the block wrapping at 64 bits |
| `KnownBlock.ZeroKeyBlock` | src/draw.rs:187-205 | Under the zero key the first block is the known first keystream block of ChaCha8 |
| `KnownBlock.QuarterExample` | src/draw.rs:246-268 | The quarter-round gives the example of section 2.1.1 of RFC 8439 |
| `KnownBlock.RowTurns` | src/draw.rs:187-196 | Eight quarter-rounds are those of the columns and then of the diagonals |
| `KnownBlock.ConstantsSpell` | src/draw.rs:147-186 | The first four words spell the constant text |
| `LeaseDraw.ReferenceFill` | src/draw.rs:46-64 | The word-by-word draw of other set sizes |
| `LeaseDraw.OnlyOne` | src/draw.rs:48-64 | A set of one value needs no keystream |
| `LeaseDraw.Pass` | src/draw.rs:101-133 | One pass extends the drawn prefix, from any offset inside it |
| `LeaseDraw.Select` | src/draw.rs:139-224 | Eight blocks at once are selected in stream order |
| `LeaseDraw.PassIsStream` | src/draw.rs:163-169 | A pass reads the stream wherever the 64-bit counter stands |
| `LeaseDraw.ChosenIsPick` | src/draw.rs:215-222 | Narrowing to bytes, masking and one table lookup choose the value at the word modulo the set size |
| `ChaCha.PickIsModulo` | src/draw.rs:46-64 | The value picked is the one at the word, read as a number, modulo the set's size |
| `ChaCha.ValueIsWord` | src/draw.rs:46-64 | A word's value by its bytes is the word read as a number |
| `LeaseDraw.LowBits` | src/draw.rs:215-219 | Only a word's low bits decide |
| `LeaseDraw.BytesAre` | src/draw.rs:206-218 | Transposes and narrowing put each block's low bytes in stream order |
| `LeaseDraw.Transpose` | src/draw.rs:230-241 | The two-level lane swap is a transpose |
| `LeaseDraw.Finish` | src/draw.rs:147-205 | Every lane of every group is one keystream block |
| `LeaseDraw.FinishedLane` | src/draw.rs:197-205 | Adding the start state back finishes each lane's block |
| `LeaseDraw.GroupLane` | src/draw.rs:147-186 | Each lane starts as the initial state of its own counter |
| `LeaseDraw.Counters` | src/draw.rs:163-178 | The counter words, the high word's carry included |
| `LeaseDraw.VectorRounds` | src/draw.rs:187-196 | Four double rounds in every lane |
| `LeaseDraw.VectorQuarterRound` | src/draw.rs:246-268 | The in-place quarter-round of all groups is a quarter-round in every lane |
| `LeaseDraw.QuarterRoundLane` | src/draw.rs:246-268 | So for one group |
| `LeaseDraw.QuarterLane` | src/draw.rs:246-268 | So for four words |
| `LeaseDraw.Rot16Lane` | src/draw.rs:272-274 | Swapping halfwords rotates every lane by 16 |
| `LeaseDraw.Rot12Lane` | src/draw.rs:279-281 | Shift and insert rotate every lane by 12, and by 7 |
| `LeaseDraw.Rot8Lane` | src/draw.rs:91-92 | The byte shuffle rotates every lane by 8 |
| `MomentSums.Moments.Push` | src/cutoff.rs:24-37 | After any stream the four accumulators are the batch mean and the sums of second, third and fourth powers of deviations from it |
| `MomentSums.PushExact` | src/cutoff.rs:24-37 | One observation's update formulas are exact |
| `MomentSums.MeanStep` | src/cutoff.rs:24-37 | The running mean is the mean |
| `MomentSums.Shift` | src/cutoff.rs:24-37 | What moving the centre does to the sums of powers |
| `MomentSums.Moments.constructor` | src/cutoff.rs:15-21 | Empty accumulators are those of the empty stream |
| `Quantiles.P2.Push` | src/cutoff.rs:94-134 | For every stream: until five values they are stored, the fifth sorts them; from then on markers ascend, the outer ones are the extremes seen, positions are whole, strictly increasing, from 1 to the count, and wanted positions are 1 + (count - 1) * step; what it aims at stays |
| `Quantiles.P2.Estimate` | src/cutoff.rs:148-150 | There is an estimate exactly after five values: the middle marker, between the smallest and the largest |
| `Quantiles.P2.constructor` | src/cutoff.rs:84-92 | The starting markers aim at the least value, the wanted quantile, the greatest, and halfway between; no observation changes what they aim at |
| `Quantiles.PushedKept` | src/cutoff.rs:94-134 | One observation keeps all that, in either phase |
| `Quantiles.AdvanceHolds` | src/cutoff.rs:103-118 | Widening and counting keep the markers well formed before any is moved |
| `Quantiles.AdjustHolds` | src/cutoff.rs:119-133 | Moving one marker keeps them so, and no divisor is zero |
| `Quantiles.MovePlaced` | src/cutoff.rs:119-132 | A marker only moves where there is room |
| `Quantiles.HeightBetween` | src/cutoff.rs:119-146 | Its new height lies between its neighbours |
| `Quantiles.ParabolicInterpolates` | src/cutoff.rs:136-141 | On markers of a parabola the formula gives the parabola's value one step on |
| `Quantiles.LinearInterpolates` | src/cutoff.rs:143-146 | On markers of a line the fallback gives the line's value |
| `Quantiles.Observe` | src/cutoff.rs:103-133 | The source's loops, marker by marker, reach the markers that `PushedKept` is about |
| `Quantiles.Locate` | src/cutoff.rs:104-112 | The comparison chain finds the cell and widens the outer markers |
| `Quantiles.Count` | src/cutoff.rs:103-118 | The counting loops move exactly the positions above the cell and every wanted position |
| `Quantiles.Tweak` | src/cutoff.rs:119-133 | One marker's adjustment as the source writes it is the one `AdjustHolds` is about: parabolic when strictly between the neighbours, else linear |
| `Loosening.Stage.Widen` | src/cascade.rs:438-477 | A loosening, credited to the audits or to the rest, keeps the two shares multiplying to the stage's loosening, clamps included |
| `Loosening.Stage.Restore` | src/cascade.rs:438-477 | Undoing the audits' loosening leaves exactly what the other checks did; the clamp at one never bites |
| `Loosening.Stage.Apply` | src/cascade.rs:438-477 | What each verdict of a model check does, and what it leaves alone |
| `Loosening.Stage.LoosenStep` | src/cutoff.rs:340-344 | The factor returned is the one that took effect |
| `Loosening.Stage.RestoreStep` | src/cutoff.rs:347-349 | Restoring divides, at most up to one |
| `Loosening.Stage.constructor` | src/cutoff.rs:255-265 | A new stage is not loosened |
| `Loosening.SplitLoosened` | src/cascade.rs:438-477 | Crediting a factor to either share keeps the split |
| `Loosening.SplitRestored` | src/cascade.rs:438-477 | Dividing out the audits' share leaves the others' |
| `LeaseTurns.RunOk` | src/lib.rs:339-491 | Every interleaving of leases joining, feeding, stopping and reporting, of the runner exiting and the intake closing, keeps the protocol's invariant |
| `LeaseTurns.OneFeeds` | src/lease_turn.rs:66-86 | At most one lease holds the turn |
| `LeaseTurns.Blocks` | src/lib.rs:420-483 | Along the intake channel rounds never fall, a lease's salts are consecutive, and the next lease is a later one that starts at its first salt |
| `LeaseTurns.ReportedExactly` | src/lib.rs:339-383 | A lease whose report ended normally reported each queued salt exactly once and nothing else |
| `LeaseTurns.NewOutcome` | src/lib.rs:339-383 | An outcome is new to its lease |
| `LeaseTurns.SendOk` | src/lib.rs:455-483 | Queueing one salt keeps the invariant |
| `LeaseTurns.LeaseStepOk` | src/lib.rs:420-491 | So does every step of a lease |
| `LeaseTurns.StepQueues` | src/lib.rs:420-491 | A step of a lease starts a new round exactly when it is stopped while it waits or still has salts to queue, and queues its next salt exactly while it holds the turn, is neither stopped nor halted, and the open intake has room |
| `LeaseTurns.StepReports` | src/lib.rs:339-383 | Exactly when a step ends the report of a lease, and how |
| `LeaseTurns.StepLeaves` | src/lease_turn.rs:66-102 | Exactly when a step leaves the line, and the round a lease gets with its turn |
| `LeaseTurns.StepPhases` | src/lib.rs:420-491 | Exactly when a lease waits, has handed its turn on, or is gone |
| `LeaseTurns.StepCounts` | src/lib.rs:455-480 | Exactly when it counts the salt it just queued, and what it has counted |
| `LeaseTurns.StepEnds` | src/lib.rs:455-478 | Exactly when it ends its turn before its last salt is queued |
| `LeaseTurns.StepHalts` | src/lib.rs:484-490 | Exactly when the end of its report halts its feeder |
| `LeaseTurns.StepOutside` | src/lib.rs:339-491 | The runner takes salts one by one, answers only what was taken and not yet answered, and changes nothing else of a lease; a new lease starts at the end of the line |
| `LeaseTurns.StepOnlyOwn` | src/lib.rs:420-491 | A step of a lease touches no other lease, and only being stopped stops it |
| `LeaseTurns.WithoutIs` | src/lease_turn.rs:89-102 | Leaving the line removes that lease only and keeps the order |
| `LeaseTurns.Turns.constructor` | src/lease_turn.rs:24-34 | An empty line |
| `LeaseTurns.Turns.Join` | src/lease_turn.rs:37-47 | A new lease gets the next number, at the end of the line |
| `LeaseTurns.Turns.Release` | src/lease_turn.rs:89-102 | A lease leaves the line from wherever it stands; leaving again does nothing |

## Left out

- Residents.Run: a ticket that does not fit its plan ends the account with `Overrun`; the source goes on to the index past the end that `Cascade.UnfitIndexesPast` shows.
- Residents.Run: preparation is one queue, as `PreparedQueues.Drive` justifies while the workers live; a dead worker is the separate `NoWorkers` ending only at the start.
- Residents.RunFallback: the chunks and pauses of the run are one moment at which the environment may act, and what the reads hold is not modelled.
- SlotPools.NewPool: the checks on the graph itself (`validate_batch`) and decode-pool and buffer allocation are not modelled.
- SlotPools.SlotPool.constructor: takes any plan with a slot; `SlotPools.NewPool` is what refuses sizes.
- SlotPools.SlotPool.ReadsMany: host capacity for the copied bytes and the pointer checks are not modelled.
- Cascade.ObserveTransition: medians and the audit lanes are a counter; which energies the audit compares is not modelled.
- Cascade.Controller.Refresh: the yield epoch and yield check are left out.
- Cascade.Controller.AdmitPrepared: yield admission and a rebuilt schedule that fails validation are left out.
- Cascade.Controller.Checkpoint: cutoffs, drift checks and statistics are an arbitrary verdict.
- Cascade.Controller.Finish: model counts and yield results are left out.
- Harvests.Harvest: each slot's target is one value for the whole harvest, and device-time accounting and model counts are left out.
- LeaseTurns.RunOk: a salt that fails ends its report like any other early exit.
- Runs are finite prefixes over scripts: that a loop eventually ends, that a waiting lease eventually gets its turn, and wall-clock polls, pauses and timeouts are not modelled.
- The resident runner, router, batch stream and the controller's plans are modelled on values threaded through their methods and not as objects; plan sharing is by index.
- P2's arrays of five, topology vectors and the pool's slots are sequences that their loops reassign; only the lease's top ten and the draw's output are arrays changed in place.
- Sorting is an insertion sort that promises order and permutation; which of two equal keys comes first is not used.
- Metal, IOKit and ANE calls, kernel source, buffer pools and unsafe copies: the device is abstract functions with a status, and `read_pointer` bounds are not modelled.
- Float rounding, NaN, infinities and 64-bit saturation of energies; signed bytes are integers in range.
- Cutoff's denominator, `cutoff_at`, `decide`, `empirical` and `load_update` (normal quantiles, logarithms and exponentials): a gate's verdict is an arbitrary boolean.
- `src/model_checks.rs`: the audit, drift and yield checks choose among the actions `Loosening.Stage.Apply` covers, arbitrarily.
- Calibration constants, occupancy curves, `dispatch_beta_limit` and the slot pool's dispatch estimate: any positive limit.
- `unpack_spins`, `unpack_slot_spins` and host scoring of reads: bit unpacking would only add easy members.
- The ChaCha8 reference library is not part of this model: its draw is the word-by-word definition `ChaCha.Pick` over the keystream of section 2.1 of RFC 8439 with 8 rounds and a 64-bit counter, which `KnownBlock.ZeroKeyBlock` fixes by one known block.
- The Advantage2 label table as a candidate colouring, utilization reports, `update_load`, `set_yield_target` and logging.
- Engine threads, scoped joins and the TOML parsing of settings.
