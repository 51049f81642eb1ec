# Scheduling simulator, placement and block tables: a verified model

This project models the parts of the repository that decide what runs when and where, and proves what
they keep over whole runs.

- The request-level simulator of continuous batching under a paged cache: admission under a watermark,
  greedy prefill packing, preemption, the closed-form jump over many decode steps, compaction, the
  variant that receives requests as they arrive, the restart of a simulated schedule, and the figures
  read off its result.
- The placement of execution plans on GPUs with fast interconnect units, the choice of plans to launch,
  and the move from stage to stage.
- The check of a request set, above all that its dependency graph has no cycle.
- The logical block table of a sequence, the structure whose size the simulator's rounding stands for.

The main results, each for every input or every run:

1. A simulated trace is right at every iteration, with or without arrivals, however often requests were
   preempted: ranges are canonical, log entries match the ranges, cumulative useful work equals the
   closed form, the cache is never over-committed, and every request gets exactly its output length.
2. The fast form of decoding (one jump) gives the same table, logs and ranges as one step at a time.
3. Both simulators terminate; without arrivals requests start in order, with arrivals nobody takes part
   in an iteration before arriving, no decode stretch passes a check point while requests are awaited,
   and the clock never goes back and moves on its own only to the next arrival.
4. Restarting conserves work and keeps time for every plan: the new clock adds up the recovery and the
   old iterations that remain, and who has iterations left behind its recovery finishes as long after
   the recovery as it did after the stop. It is exact for every simulated schedule. Restarting its own
   result can violate its final assertion: a simulated schedule shows it, and for every schedule
   without idle iterations the assertion, and exactness, hold if and only if a stated condition on the
   cut does.
5. Packing uses the fewest possible batches.
6. GPU assignments stay exact, disjoint and local over whole runs, as long as the plans of a round fit
   the machine; the one failure is characterised, and who stays where it was is said exactly: when no
   plan is new, nobody moves.
7. Candidates are launched in a topological order, largest first, on GPUs that no plan going on holds,
   and the loop ends exactly on acyclic dependencies; between rounds one plan per model runs, no earlier stage
   is left behind, and a candidate is turned away only for lack of GPUs.

How the files fit together: `Requests`, `DecodeJump`, `Ranges`, `Packing` and `Traces` define the
operations on values; `TraceInvariant`, `TraceSteps`, `Queues`, `Rounds`, `FirstCome` and `Resume` prove
what each step keeps; `Watermark` says in arithmetic who is admitted; `Simulation` puts a round together
as a function of the state. `Scheduler` is the class with the arrays the code updates in place; its
methods are proved to compute those functions.
`Offline` and `Arrivals` (with `ArrivalCheck`, `ArrivalRounds`, `CheckPoints` and `Clock`) are the two
simulators, `Reports` the figures read off a trace, and the `Restart` files the restart: `RestartPlan`,
`RestartKept`, `RestartClock` and `RestartArrays` its parts, `Restart` the method, `RestartScan` and
`RestartShape` when its result is exact, `RestartTwice` the schedule that is not. `Placement`,
`Relocation`, `RelocationSound`, `PlacementStays` and `FirstAssignment` specify and prove the placement,
`PlanStates` has the class of plan states and the methods on it, `PlacementRuns` follows reassignments
and `PlacedRuns` whole runs. `Loading`, `LoadTurns` and `PlanLoading` are the choice of plans to launch,
the five `Stage` files the move through the stages. `Acyclic` is shared by `Loading` and
`DependencyGraph`. `Lists`, `StableSort`, `Divisibility` and `GpuUnits` are the common ground.

Assumptions, all from the way the code is used: block size, block count, table size and all lengths are
at least 1; each request's longest form leaves one percent of the cache free and fits one prefill batch
(`Queues.Servable`); a batch of requests that breaks this makes the code fail or spin. Plan widths and
unit divide one another as powers of two do, and each stage has at most one plan per model. Placement
results ask in addition that the plans of the round fit the machine.

Where code and comments disagree the code is followed: the restart's comment speaks of running requests
after the stop, and the model covers the case without any as well.

## Model

| member | source | states |
|---|---|---|
| `DecodeJump.JumpExact` | benchmarks/fake_scheduling.py:196-209 | The closed form before the final minimum is the largest number of decode steps the cache has room for: for every k, the blocks needed after k more steps are within the limit if and only if k is at most the closed form. |
| `DecodeJump.JumpIsStepping` | benchmarks/fake_scheduling.py:196-216 | Jumping the computed number of steps gives the table that decoding one token at a time gives, until a request finishes or the next step would overflow the cache; nothing on the way overflows it, and a table with room for one step makes progress. |
| `DecodeJump.UniqueCounts` | benchmarks/fake_scheduling.py:201-208 | Counting equal extra steps into bins and accumulating the bins counts, below every value, exactly the requests with at most that many extra steps. |
| `Ranges.AddRangeFacts` | benchmarks/fake_scheduling.py:62-70 | Recording iterations start..end keeps the list canonical (ordered maximal ranges), adds exactly those iterations, and changes the count at every stop accordingly. |
| `Ranges.CanonicalUnique` | benchmarks/fake_scheduling.py:62-77 | A canonical list is determined by its set of iterations: the encoding is unique. |
| `Ranges.FinishedByCounts` | benchmarks/fake_scheduling.py:1618-1620 | The vectorised count of finished iterations at a stop grows by one exactly at the iterations the request attends, so it is the number of attended iterations up to the stop. |
| `Ranges.FinishedByLate` | benchmarks/fake_scheduling.py:1618-1623 | Read at or after the last iteration, the count is the total of all ranges. |
| `Packing.PackSound` | benchmarks/fake_scheduling.py:132-174 | Packing keeps every prompt once and in order, keeps every batch within longest prompt times size, and fails (maximum of an empty list) if and only if the first prompt alone exceeds the budget. |
| `Packing.PackOptimal` | benchmarks/fake_scheduling.py:132-174 | No division of the same prompts into consecutive batches within the budget uses fewer batches than the greedy one, and none has consumed more prompts after as many batches. |
| `Packing.GreedyStaysAhead` | benchmarks/fake_scheduling.py:141-166 | The exchange argument behind optimality: from any point of the packing loop on, after any number of batches the greedy packing has consumed at least as much as any legal packing after as many. |
| `Traces.DecodeUnrolls` | benchmarks/fake_scheduling.py:310-321 | Logging k decode iterations at once leaves the logs, flags and ranges that logging them one at a time leaves. |
| `TraceSteps.PrefillKeeps` | benchmarks/fake_scheduling.py:119-131 | One prefill iteration keeps the whole trace invariant: canonical ranges, exact log entries, cumulative useful work equal to the closed form, cache bound, prefills only at the start of a range. It holds for prompts prefilled again after preemption too. |
| `TraceSteps.DecodeOneKeeps` | benchmarks/fake_scheduling.py:308-321 | One decode iteration that fits the cache keeps the whole trace invariant. |
| `Rounds.PrefillAllKeeps` | benchmarks/fake_scheduling.py:138-174 | Prefilling any number of batches keeps the trace invariant and gives each prompt exactly one iteration and nobody else any. |
| `Rounds.JumpKeeps` | benchmarks/fake_scheduling.py:308-326 | A whole decode jump keeps the trace invariant and gives each running request exactly k iterations. |
| `Queues.AdmitKeeps` | benchmarks/fake_scheduling.py:255-278 | Admission splits the waiting list in front; afterwards running and waiting requests still partition the unfinished ones, each with length plus remaining tokens equal to its original total. |
| `Watermark.AdmitExact` | benchmarks/fake_scheduling.py:253-278 | In plain arithmetic: each admitted prompt finds a free place in the table, and one percent of the cache blocks would stay free both with one more token and with the whole prompt; if a prompt is left although a place is free, one of the two fails for it. The table is the old one followed by the admitted requests that go on. |
| `Watermark.RoundAdmits` | benchmarks/fake_scheduling.py:251-278 | In every reachable state a round admits exactly the longest prefix of the waiting list whose every prompt leaves one percent of the cache blocks free at its turn. |
| `Queues.HeadAdmitted` | benchmarks/fake_scheduling.py:255-278 | With nobody running the head of the waiting list is always admitted, so a round never stalls. |
| `Queues.KillKeepsRoom` | benchmarks/fake_scheduling.py:43-58 | After preemption the kept prefix is not empty and has cache for one more token each, and the preempted suffix in front of the waiting list keeps every queue invariant, first-come order included. |
| `Queues.KeptExact` | benchmarks/fake_scheduling.py:36-47 | Preemption keeps the longest prefix of the table for whose every request the blocks of the ones before with one more token each, its own, and one more block fit the cache. |
| `Queues.DecodeKeeps` | benchmarks/fake_scheduling.py:324-329 | Decoding and compaction keep the queue invariants: who is left owes exactly what is left, who is gone has had its full output. |
| `Rounds.AdmitPrefillKeeps` | benchmarks/fake_scheduling.py:253-291 | Admission followed by prefilling keeps trace and queues consistent, and leaves no request that could still be admitted. |
| `Rounds.DecodeRoundKeeps` | benchmarks/fake_scheduling.py:307-329 | Decoding followed by compaction keeps trace and queues consistent. |
| `FirstCome.AdmitOrder` | benchmarks/fake_scheduling.py:253-291 | Requests are first prefilled in the order of their numbers, whatever was preempted before. |
| `FirstCome.DecodeOrder` | benchmarks/fake_scheduling.py:319-329 | Decoding never starts a request, so the order of first iterations is kept. |
| `Resume.AdmitResumes` | benchmarks/fake_scheduling.py:253-304 | All running requests are up to date at the end of prefilling, however many prefill iterations came between. |
| `Resume.DecodeResumes` | benchmarks/fake_scheduling.py:307-329 | Requests that run through a decode stretch resume at the same iteration: nobody running is skipped by a decode step. |
| `Simulation.JumpRefinesStepping` | benchmarks/fake_scheduling.py:196-216 | Jump and one-step-at-a-time simulation give the same running table and the same trace, logs and ranges included. |
| `Simulation.PrefillingKeeps` | benchmarks/fake_scheduling.py:253-291 | The first half of a round keeps the invariant and never adds owed tokens; it removes some whenever a prompt is admitted, and with nobody left running nobody waits. |
| `Simulation.PreemptingKeeps` | benchmarks/fake_scheduling.py:300-307 | After preemption somebody runs, the order of running followed by waiting is unchanged, and every step of the coming jump fits the cache. |
| `Simulation.DecodingKeeps` | benchmarks/fake_scheduling.py:307-329 | The second half of a round keeps the invariant and strictly lowers the total of owed tokens. |
| `Simulation.AllServed` | benchmarks/fake_scheduling.py:319-329 | When nobody runs or waits, each request's ranges cover exactly its output length in iterations. |
| `SchedulerState.Scheduler.constructor` | benchmarks/fake_scheduling.py:224-244 | The starting state: empty table, all lengths as given, nothing logged. |
| `SchedulerState.Scheduler.AdmitHead` | benchmarks/fake_scheduling.py:259-275 | The head of the waiting list enters the table one token longer, or is counted as finished when its prefill was all it needed; the cache and the count of unfinished requests change accordingly. |
| `SchedulerState.Scheduler.AdmitWaiting` | benchmarks/fake_scheduling.py:253-278 | The admission loop on the arrays computes the admission function (whose choice `Watermark.AdmitExact` states): new table, rest of the waiting list and the admitted prompts. |
| `SchedulerState.Scheduler.StoreInferState` | benchmarks/fake_scheduling.py:73-77 | The listed requests, and only they, have the iterations recorded. |
| `SchedulerState.Scheduler.PrefillStep` | benchmarks/fake_scheduling.py:119-131 | One batch is logged with its useful-work entry and recorded as one iteration. |
| `SchedulerState.Scheduler.UpdatePrefillLogs` | benchmarks/fake_scheduling.py:80-174 | The packing loop over the admitted prompts leaves the trace that prefilling the packed batches one after the other leaves. |
| `SchedulerState.Scheduler.KeptCount` | benchmarks/fake_scheduling.py:43-47 | The accumulated block estimates pick the longest prefix whose every estimate is within the cache. |
| `SchedulerState.Scheduler.ReturnToWaiting` | benchmarks/fake_scheduling.py:54-58 | The preempted entries are in front of the waiting list, in order and at their current lengths; entries not yet received are untouched. |
| `SchedulerState.Scheduler.KillForCacheSpace` | benchmarks/fake_scheduling.py:30-59 | The table keeps the prefix that fits, the rest goes back in front of the waiting list, and the cache counter is the blocks of the kept requests. |
| `SchedulerState.Scheduler.DecodeSteps` | benchmarks/fake_scheduling.py:308-326 | Logs, flags, ranges and table after k decode steps are those of k steps of the whole table. |
| `SchedulerState.Scheduler.RemoveFinished` | benchmarks/fake_scheduling.py:13-27 | The arrays are compacted in place to the requests with tokens left, in order; the count of unfinished requests drops by those removed and the cache counter is exact. |
| `SchedulerState.Scheduler.AdmitAndPrefill` | benchmarks/fake_scheduling.py:253-291 | The first half of a round on the arrays is the first half of the abstract round. |
| `SchedulerState.Scheduler.DecodeAndCompact` | benchmarks/fake_scheduling.py:307-329 | The second half of a round on the arrays is the second half of the abstract round. |
| `Offline.RoundKeeps` | benchmarks/fake_scheduling.py:251-329 | A whole round keeps every invariant (conservation, cache bound, partition of unfinished requests, first-come order, starting order) and leaves strictly fewer owed tokens unless the simulation ends. |
| `Offline.Round` | benchmarks/fake_scheduling.py:251-329 | The round on the arrays computes the abstract round. |
| `Offline.ScheduleWithoutArrivals` | benchmarks/fake_scheduling.py:177-336 | The simulator without arrivals terminates, and its result satisfies the trace invariant at every iteration prefix, gives each request exactly its output length in iterations, and starts requests in order; it is the trace that the abstract rounds lead to, of which `Watermark.RoundAdmits` says whom each admits. |
| `ArrivalCheck.CheckFacts` | benchmarks/fake_scheduling.py:364-393 | The check never sets the clock back, moves it only when nobody runs (and then receives somebody), receives only requests that have arrived, and stops at one that has not. |
| `ArrivalCheck.StableOrderUnique` | benchmarks/fake_scheduling.py:398-402 | The stable order by decreasing length is unique, so any stable sort gives the modelled order. |
| `ArrivalCheck.ReceiveKeeps` | benchmarks/fake_scheduling.py:394-407 | Appending the numbers from the pointer to the new end, sorted or not, receives each new request exactly once and keeps every queue invariant. |
| `CheckPoints.ArrangedInLine` | benchmarks/fake_scheduling.py:394-407 | New requests are appended by decreasing length when sorting is asked for, those of the same length by number, and otherwise by number; none is lost. |
| `CheckPoints.ChecksWhenDue` | benchmarks/fake_scheduling.py:645-650 | In every reachable state a round starts with the check if and only if nobody runs or waits, or requests are awaited at a multiple of the gap; it receives exactly those that have arrived up to the first that has not, and otherwise changes nothing. |
| `ArrivalCheck.SortWaiting` | benchmarks/fake_scheduling.py:398-402 | The waiting part of the four arrays is reordered in place by the given order; the part not yet received does not change. |
| `ArrivalCheck.CheckNewInputRequests` | benchmarks/fake_scheduling.py:339-407 | The check on the arrays: new waiting list, clock, and the part not yet received untouched. |
| `Clock.CausalGoesOn` | benchmarks/fake_scheduling.py:697-705 | Appending the clock readings of new iterations keeps the clock a running sum of the latencies and keeps every iteration later than the arrival of whoever takes part. |
| `ArrivalRounds.UpToCheckFacts` | benchmarks/fake_scheduling.py:733-742 | The clamp lands on the next multiple of the check gap, at most one gap away, and is zero exactly when the current step is such a multiple and the must-record flag is unset; setting the flag then excludes a second empty round. |
| `CheckPoints.StretchEnds` | benchmarks/fake_scheduling.py:733-746 | While requests are awaited and nobody waits, a decode stretch passes no check point: no multiple of the gap from the current step (or the next, with the must-record flag) on lies inside it. It ends at such a multiple or exactly where decoding one token at a time would stop, and always there when nothing is awaited. |
| `ArrivalRounds.RoundKeeps` | benchmarks/fake_scheduling.py:642-777 | Every round keeps the invariants, never sets the clock back, and lowers the pair of owed tokens and whether the must-record flag is unset, rounds of zero steps included, unless the simulation ends. |
| `CheckPoints.RoundObeys` | benchmarks/fake_scheduling.py:642-777 | Every round in every reachable state: the check when due, requests awaited exactly when some are missing, none waits, a place is free and one more token leaves one percent of the cache free; the stretch as above; and each iteration starts the moment the one before it ends and takes its latency. |
| `Arrivals.CheckIfDue` | benchmarks/fake_scheduling.py:645-650 | The check is made exactly when due and then is the abstract check. |
| `Arrivals.Round` | benchmarks/fake_scheduling.py:642-777 | The round on the arrays computes the abstract round, clock and flags included; what that is, `CheckPoints.RoundObeys` states. |
| `Arrivals.RunToEnd` | benchmarks/fake_scheduling.py:642-777 | The rounds reach a state in which nobody runs, waits or is still to come, with every invariant intact; the run is a chain of rounds each of which obeys the check points, the stretches and the clock. |
| `Arrivals.ScheduleWithArrivals` | benchmarks/fake_scheduling.py:552-782 | The simulator with arrivals terminates; its trace satisfies everything the other one's does except first-come order, no request takes part in an iteration that starts before it arrives, and the result ends a chain of rounds from the start each of which satisfies `CheckPoints.RoundLaw`: checks when due, no stretch past a check point, no gap in the clock. |
| `Reports.MergedIsScattered` | benchmarks/fake_scheduling.py:1794-1802 | Filling prefill and decode entries into their positions by mask equals interleaving the two logs by the step flags. |
| `Reports.UsefulWorkAgrees` | benchmarks/fake_scheduling.py:1672-1681 | At every stop the cumulative useful work read from the logs equals the closed form over the finished lengths, in both totals that the costs are computed from; preemption and recomputation do not count twice. |
| `Reports.FlatAgrees` | benchmarks/fake_scheduling.py:1574-1585 | The flattened ranges give each request the same finished count at every stop and the same last iteration as its own list. |
| `Reports.FinishesAfterArrival` | benchmarks/fake_scheduling.py:1091-1103 | The finish time is read at the iteration that completes the output, and is not before the arrival. |
| `Reports.FinishTimeExact` | benchmarks/fake_scheduling.py:1091-1103 | There is one iteration at which the finished count reaches the output length, and the finish time is the clock reading of that one. |
| `Reports.ClockMonotone` | benchmarks/fake_scheduling.py:1588-1603 | The cumulative clock never decreases and is never negative. |
| `RestartPlan.CutCounts` | benchmarks/fake_scheduling.py:1320-1329 | Cutting a request's ranges after the stop loses nothing: done and left add up to the total. |
| `RestartPlan.MoveUpFacts` | benchmarks/fake_scheduling.py:1417-1423 | Deleting an iteration nobody attends keeps the counts, the order and the disjointness of ranges, and shifts the later ones by one. |
| `RestartPlan.WithPrefillFacts` | benchmarks/fake_scheduling.py:1442-1481 | Joining the recovery prefill in front adds exactly one iteration and keeps the ranges ordered and disjoint; it becomes one range with the first when that follows directly, and stands alone otherwise. |
| `Restart.FirstIterAt` | benchmarks/fake_scheduling.py:1397-1414 | The deletion candidates are exactly the first iterations after the stop of the requests running there. |
| `Restart.RecoveryFacts` | benchmarks/fake_scheduling.py:1350-1367 | The recovery prefills give every running request exactly one iteration, in front, and nobody else any. |
| `Restart.RestartConserves` | benchmarks/fake_scheduling.py:1302-1494 | For each request the iterations done by the stop plus those of the rebuilt ranges equal its total, and the rebuilt ranges are ordered and disjoint, for every legal plan. |
| `RestartClock.RestartedClockFacts` | benchmarks/fake_scheduling.py:1376-1378 | The rebuilt clock has one entry per rebuilt flag and does not go back if the old one did not. |
| `RestartClock.ClockOfLengths` | benchmarks/fake_scheduling.py:1376 | A clock is the running sum of given step lengths if and only if those are its successive differences. |
| `RestartClock.RestartedClockAdds` | benchmarks/fake_scheduling.py:1376-1378 | The rebuilt clock before any deletion is the running sum of the recovery latencies followed by the old step lengths after the stop. |
| `RestartKept.EntriesSurvive` | benchmarks/fake_scheduling.py:1417-1435 | Of an array over iterations the deletion loop keeps the recovery entries and, in order, those of the positions that are attended or that it never reads; a read behind the array costs the last entry instead. |
| `RestartKept.RangesMove` | benchmarks/fake_scheduling.py:1417-1423 | The loop keeps every range in its place and moves each of its ends to the number of kept positions below it, wherever the reads fall. |
| `RestartKept.EntryAtRank` | benchmarks/fake_scheduling.py:1417-1435 | An attended position finds its own entry at its new place, as long as that is inside the array: ranges and arrays move alike. |
| `Restart.FinishMoves` | benchmarks/fake_scheduling.py:1105-1118 | A request finishes in its recovery prefill, or at the recovery time plus the time that its last iteration before the restart ended after the stop. |
| `Restart.DeleteLoop` | benchmarks/fake_scheduling.py:1417-1435 | The loop deletes each candidate that became idle from ranges, clock and flags alike. |
| `Restart.MergeLoop` | benchmarks/fake_scheduling.py:1438-1486 | Every request's ranges are moved behind the prefills and joined with its own; the flat arrays hold them one behind the other, and the valid indices are exactly the requests that still have ranges, in order. |
| `RestartArrays.FlatFacts` | benchmarks/fake_scheduling.py:1450-1486 | The flat arrays hold the ranges of exactly the requests that have any, each in its place, with the counts running up. |
| `RestartArrays.FinishTimes` | benchmarks/fake_scheduling.py:1105-1118 | Each request that still has iterations finishes at the clock reading of its last one. |
| `Restart.RestartSchedule` | benchmarks/fake_scheduling.py:1302-1532 | The whole restart fails exactly when the largest end is not the last iteration of the rebuilt schedule, as its last assertions do; otherwise it returns the rebuilt ranges; the flags and the clock, which are the recovery entries and those of the kept positions, the clock's taken from the running sum of the recovery latencies and the old step lengths after the stop; the flat arrays; the requests that still have iterations; and their finish times, each the recovery time plus what its old last iteration ended after the stop, or the reading of its recovery prefill. |
| `RestartScan.ReadsRight` | benchmarks/fake_scheduling.py:1417-1435 | The deletion loop goes on with candidates from before its own deletions: after d deletions a candidate f stands for position f + d of the plan the loop started from, and from the last candidate on the plan is the old one moved up by d. |
| `RestartScan.LoopEnd` | benchmarks/fake_scheduling.py:1417-1435 | Where the ranges end after the loop, and that gaps remain exactly at idle positions the loop never reads. |
| `RestartShape.RestartEndsIff` | benchmarks/fake_scheduling.py:1489-1493 | For every plan: the largest end exceeds the last iteration of the rebuilt schedule by the candidates read behind the last attended position, less the positions behind it. |
| `RestartShape.RestartAssertionIff` | benchmarks/fake_scheduling.py:1489-1493 | For every schedule without idle iterations the final assertion holds if and only if every candidate before the end of the trimmed plan is also read before it, which one pass over the candidates decides; otherwise the ranges stick out of the schedule. |
| `RestartShape.RestartExactIff` | benchmarks/fake_scheduling.py:1489-1493 | The rebuilt plan fits the rebuilt schedule without gaps if and only if, besides, the loop reads every idle position before the end of the trimmed plan. |
| `RestartShape.RestartExact` | benchmarks/fake_scheduling.py:1489-1493 | With at most one candidate after the stop, the rebuilt ranges lie inside the rebuilt schedule and attend every iteration of it: the final assertions hold. |
| `RestartShape.SimulatedRestartExact` | benchmarks/fake_scheduling.py:1302-1494 | Every schedule the simulators produce can be restarted after any iteration but the last, exactly. |
| `RestartShape.PairsFacts` | benchmarks/fake_scheduling.py:1574-1585 | The list of pairs the restart works on says the same as the flat list: order, counts, iterations. |
| `RestartTwice.OnceSimulated` | benchmarks/fake_scheduling.py:177-336 | The simulator without arrivals, on two requests whose prompts do not fit one batch, produces this schedule. |
| `RestartTwice.OnceRestarted` | benchmarks/fake_scheduling.py:1302-1494 | Restarting that simulated schedule after its first iteration gives a plan whose running requests have two different first iterations. |
| `RestartTwice.RestartAgainSticksOut` | benchmarks/fake_scheduling.py:1489-1493 | Restarting that plan leaves ranges beyond the end of the schedule, so the final assertion fails: the restart is exact on simulated schedules, not on its own results. |
| `Placement.EndsTogetherIff` | benchmarks/schedule_multi_model.py:1158-1162 | Comparing the units of the smallest and the largest GPU number of a replica decides exactly whether the whole replica is inside one unit. |
| `Placement.PlaceFacts` | benchmarks/schedule_multi_model.py:1144-1172 | Whether a plan stays or takes the next candidates, it gets exactly what it needs from the candidates, well placed, and what is left can still be dealt out in the same portions. |
| `Placement.ReassignSound` | benchmarks/schedule_multi_model.py:1144-1172 | Handing out by decreasing width gives every plan exactly its GPUs, pairwise disjoint, narrow replicas inside one unit, wide ones filling whole units. |
| `RelocationSound.CandidateIff` | benchmarks/schedule_multi_model.py:1094-1134 | The candidate GPUs are exactly those no wide plan that keeps running holds. |
| `RelocationSound.CandidatesCount` | benchmarks/schedule_multi_model.py:1094-1134 | Candidates and the GPUs of staying wide plans together are the whole machine, counted without overlap. |
| `RelocationSound.PlacingReady` | benchmarks/schedule_multi_model.py:1138-1142 | The order of placing goes to ever smaller portions, so the portions left over always fit. |
| `RelocationSound.NoUnitsIff` | benchmarks/schedule_multi_model.py:1116-1134 | The assertion on staying wide plans never fails, and the reassignment fails (joining an empty list of groups) if and only if those plans hold every GPU. |
| `RelocationSound.RelocationHouses` | benchmarks/schedule_multi_model.py:1076-1175 | After a reassignment all plans hold exactly the GPUs they need, pairwise disjoint, inside the machine and well placed, and wide plans that keep running have not moved. |
| `PlacementStays.RelocationStays` | benchmarks/schedule_multi_model.py:1144-1175 | A narrow plan that was running stays where it was, and is not to be reloaded, if and only if all its GPUs are candidates that no plan before it in the order has got and each replica is inside one unit; everybody else in the order gets the first candidates left, and is to be reloaded exactly if it was running. Wide plans that keep running are never touched. |
| `PlacementStays.NobodyMoves` | benchmarks/schedule_multi_model.py:1076-1175 | When no plan is new and all were well placed and disjoint, a reassignment that succeeds moves nobody and reloads nothing. |
| `PlacementStays.CostExact` | benchmarks/schedule_multi_model.py:1113-1122 | Clearing a unit that no staying wide plan holds costs the sum of the loads of the plans that hold part of it. |
| `PlacementStays.CheapestFirst` | benchmarks/schedule_multi_model.py:1128-1129 | Units are given away by increasing cost. |
| `PlacementStays.FreeFirst` | benchmarks/schedule_multi_model.py:1131-1132 | In every unit the GPUs nobody uses come first. |
| `PlacementStays.PlacedInTurn` | benchmarks/schedule_multi_model.py:1138-1142 | Plans are placed by decreasing width, then those that were running, then those that fill whole units, then the largest. |
| `FirstAssignment.FirstPlacingHouses` | benchmarks/schedule_multi_model.py:492-517 | The first assignment establishes all of that. |
| `FirstAssignment.StartsInTurn` | benchmarks/schedule_multi_model.py:495 | The first assignment goes by decreasing width, then whole units, then most replicas, then the given order. |
| `FirstAssignment.FirstTakes` | benchmarks/schedule_multi_model.py:496-517 | In that order each plan takes the lowest GPUs that nobody has got before. |
| `PlacementRuns.PowersFit` | benchmarks/schedule_multi_model.py:1084-1087 | Worker counts and unit that are powers of two meet the divisibility the placement results ask for. |
| `RelocationSound.NoRoomIff` | benchmarks/schedule_multi_model.py:1116-1134 | The reassignment fails if and only if the wide plans that keep running need as many GPUs as there are. |
| `PlacementRuns.StoppedLeavesRoom` | benchmarks/schedule_multi_model.py:1094-1175 | When a plan of the last round has stopped, its GPUs are held by no plan that stays and the reassignment succeeds. |
| `PlacementRuns.NothingLeftToJoin` | benchmarks/schedule_multi_model.py:1131-1134 | A concrete run that fails: one plan over the whole machine, and a round in which it goes on. |
| `PlacementRuns.RunFromStartHouses` | benchmarks/schedule_multi_model.py:1076-1175 | Over any number of reassignments from the first assignment, given that each round's plans follow the last one's and fit the machine, every plan is well placed in every round and the assertion never fails. |
| `PlacedRuns.RoundFollows` | benchmarks/schedule_multi_model.py:1092-1108 | With one plan per model in both rounds, the plans that keep running take over the GPUs of different plans of the round before. |
| `PlacedRuns.PlacedRound` | benchmarks/schedule_multi_model.py:1178-1229 | Deciding what runs next and placing it: the stage rules are kept and the placement is the specified one whatever the demand; if the plans fit the machine, the assertion holds, the only failure is that wide plans which keep running hold every GPU, and otherwise all plans are well placed, those wide ones have not moved, and if no plan is new nobody has. |
| `PlacedRuns.RunPlaced` | benchmarks/schedule_multi_model.py:1178-1229 | Over whole runs from the first stage on, whenever models finish: every round follows from the one before by the rules of `StagePicks.Chain`, the stage rules hold, and as long as the plans fit the machine all of them are well placed in every round and the assertion never fails. |
| `PlanStates.PlanState.constructor` | benchmarks/schedule_multi_model.py:39-61 | A new plan state holds no GPUs and is not launched. |
| `PlanStates.AssignFirst` | benchmarks/schedule_multi_model.py:492-517 | The loop over the first stage gives every plan state the GPUs of the first assignment and launches it. |
| `PlanStates.Survey` | benchmarks/schedule_multi_model.py:1094-1125 | The pass over the running plans restores what they held, computes exactly the cost of clearing each unit and the GPUs in use, and fails exactly when a staying wide plan does not fill its units. |
| `PlanStates.PlaceAll` | benchmarks/schedule_multi_model.py:1144-1172 | The placing loop leaves every plan of the order with the GPUs of the specification, everybody else unchanged, and reports exactly the plans that moved; who moves, `PlacementStays.RelocationStays` states. |
| `PlanStates.AdjustGpus` | benchmarks/schedule_multi_model.py:1076-1175 | The whole reassignment on the plan states is the specified one, with its two failures; a narrow plan stays, and is not reported, exactly when its GPUs are left and its replicas inside units; when the plans fit the machine and the staying wide ones were placed well, all of them are placed well afterwards; when no plan is new and all were placed well, nothing is reported and everybody has its old GPUs. |
| `Loading.ChoiceBest` | benchmarks/schedule_multi_model.py:672-706 | The chosen candidate depends on no other candidate; with size ordering none of those is larger, and of equally large ones it is the first listed. |
| `Loading.LoadsIff` | benchmarks/schedule_multi_model.py:734-742 | The loop finishes if and only if the candidates' dependencies have no cycle. |
| `Loading.LoadTopological` | benchmarks/schedule_multi_model.py:734-742 | The order in which candidates are considered takes the best remaining one at every point. |
| `Loading.InputsFirst` | benchmarks/schedule_multi_model.py:681-688 | No candidate is considered before one it reads from. |
| `Loading.OrderComplete` | benchmarks/schedule_multi_model.py:734-742 | Every candidate is considered exactly once. |
| `Loading.LoadSound` | benchmarks/schedule_multi_model.py:745-778 | New plans get exactly as many free GPUs as they need, none twice and none left free; running ones keep theirs; one plan per model is chosen; a new plan is turned away only if it needs more than is left at the end. |
| `Loading.FreeExact` | benchmarks/schedule_multi_model.py:756-768 | The GPUs left are exactly the available ones that were not granted. |
| `Loading.NewGrantsTile` | benchmarks/schedule_multi_model.py:762-768 | When no candidate was running, the available list is the grants in order followed by what is left. |
| `Loading.NobodyForgotten` | benchmarks/schedule_multi_model.py:745-778 | Every candidate's model is chosen, or the candidate needs more GPUs than are left at the end, running or not, and is turned away if it is new. |
| `LoadTurns.TurnsExact` | benchmarks/schedule_multi_model.py:745-778 | Told from the outcome alone: each candidate finds the available GPUs without those granted before it in the order; it is chosen if and only if its model is not and it needs no more, a running one with its own GPUs, a new one with the first ones; otherwise a new one whose model is not chosen is turned away. |
| `PlanLoading.TryToLoad` | benchmarks/schedule_multi_model.py:709-780 | The loop on the plan states decides as specified, launches exactly the chosen plans with their GPUs, and fails exactly when the specification finds no candidate to choose. |
| `StagePreparation.PrepareStates` | benchmarks/schedule_multi_model.py:258-314 | The backward pass makes one state per plan, marked last exactly when its model appears neither earlier in its stage nor in a later one, and needing preparation exactly when the stage before lacks the same plan. |
| `StagePreparation.PreparedOk` | benchmarks/schedule_multi_model.py:270-314 | With at most one plan per model in each stage, the last mark is set if and only if no later stage uses the model. |
| `StageInvariant.ContinuesRunning` | benchmarks/schedule_multi_model.py:838-854 | A candidate that continues the stage before always finds its GPUs: the same plan is among the running ones, so the lookup never fails. |
| `StageInvariant.FirstPhase` | benchmarks/schedule_multi_model.py:818-857 | The plans that go on and those that continue are of different models, and no waiting candidate is of one of those models. |
| `StageInvariant.RoundStays` | benchmarks/schedule_multi_model.py:879-890 | While a candidate is turned away the target stage stays and the stage invariant holds. |
| `StageInvariant.RoundAdvances` | benchmarks/schedule_multi_model.py:891-896 | When nobody is turned away the next stage becomes the target and the stage invariant holds for it: every plan of earlier stages has been launched or its model has finished. |
| `StageInvariant.NeededKept` | benchmarks/schedule_multi_model.py:824-836 | A launched plan of the target stage, or one that is its model's last, keeps running until its model finishes. |
| `StagePicks.PickedGives` | benchmarks/schedule_multi_model.py:859-890 | What a look at the plans means for the GPUs: exact, distinct, in the machine and disjoint grants, and refusals only for plans larger than what is left, counted as a set of GPUs. |
| `StagePicks.LoopPicksGive` | benchmarks/schedule_multi_model.py:709-780 | What a loading loop leaves is exactly what nobody got, and whoever is not chosen, although its model is not, needs more than that. |
| `StagePicks.WidthOrderExact` | benchmarks/schedule_multi_model.py:873-878 | Candidates come by decreasing width, those of the same width in order, except for the strategies that keep the planned order. |
| `StageAdvance.ContinueCands` | benchmarks/schedule_multi_model.py:838-857 | The loop over the candidates launches those of finished models and those that continue, the latter on the GPUs of the same running plan, and leaves the others waiting. |
| `StageAdvance.LoadCands` | benchmarks/schedule_multi_model.py:859-876 | Every waiting candidate is launched or turned away, and nothing else is launched. The continuing ones have the GPUs of the running plan they continue; the loop gets exactly the GPUs below the total that no plan that goes on or continues holds, in order, and does with them what the specified loop does. |
| `StageAdvance.NextRound` | benchmarks/schedule_multi_model.py:792-916 | One round, repeats included, with models finishing between its looks at the finish status: it keeps the stage invariant, never lowers the target, launches no plan of a model seen finished, moves no plan that ran, and keeps the target only while a candidate is left. Look by look (`StagePicks.Chain`): which plans go on; every launched plan has exactly its number of different GPUs of the machine, apart from those of every plan that goes on or continues and of every other launched one; a plan is turned away only if it needs more GPUs than these leave, and a running plan is dropped for room only if it does. |
| `StageRuns.RunStages` | benchmarks/schedule_multi_model.py:792-916 | Over a whole run, whenever models finish and whatever the plans need: as many rounds as asked, each following from the one before by the rules of `StagePicks.Chain`; one plan per model runs, plans of stages before the target have been launched or their model has finished, and a model's last plan keeps running until it has. |
| `DependencyGraph.Peel` | artifact/mil_artifact/cpu_reference.py:95-100 | The peeling loop ends with nothing pending if and only if the graph has no directed cycle; self-loops count. |
| `DependencyGraph.Validate` | artifact/mil_artifact/cpu_reference.py:70-100 | The check reports the first thing that is wrong, in order: kind, empty set, fields not matching the nodes, unknown dependencies, identifiers not matching nodes and external inputs, bad lengths, and otherwise a cycle if and only if the dependencies have one. |
| `Acyclic.NoSourceCycle` | artifact/mil_artifact/cpu_reference.py:96-99 | A non-empty set of nodes each of which depends on another one of the set holds a cycle: the loop is stuck only on a cycle. |
| `LogicalBlocks.LogicalTokenBlock.constructor` | vllm/block.py:16-25 | A new block is empty. |
| `LogicalBlocks.LogicalTokenBlock.AppendTokens` | vllm/block.py:36-40 | The block holds what it held followed by the new tokens. |
| `LogicalBlocks.TidyCount` | vllm/sequence.py:143-164 | A table in which no block is empty and all but the last are full has the length of its contents divided by the block size, rounded up, in blocks. |
| `LogicalBlocks.TidyUnique` | vllm/sequence.py:143-164 | Such a table is determined by its contents. |
| `LogicalBlocks.Sequence.constructor` | vllm/sequence.py:111-138 | A new sequence's block table holds exactly the prompt, packed tight. |
| `LogicalBlocks.Sequence.AppendTokensToBlocks` | vllm/sequence.py:150-164 | The table stays packed tight and holds what it held followed by the tokens, although the cursor may end behind the input. |
| `LogicalBlocks.Sequence.AppendTokenId` | vllm/sequence.py:166-174 | The token is appended to the output and to the block table, and its log-probability to the records; the table still holds prompt and output, packed tight. |
| `LogicalBlocks.TableSize` | vllm/sequence.py:143-174 | After any appends the number of blocks is the rounded-up quotient the simulator computes with, and the table is the only one packed tight. |

## Left out

- Watermark and clock: the 0.01 watermark is the exact rational one percent and times are real numbers, where the code uses floating point.
- Integer width: the 32-bit arrays hold mathematical integers.
- Latencies: an uninterpreted non-negative function of a log entry; the cost tables and the FLOPs formula are measured data and regression.
- `update_prefill_logs` parameters for prompts carried over from the last iteration (benchmarks/fake_scheduling.py:90-94): the function always returns empty lists, so the branch that would use them is never taken.
- The simulator for vertically fused models (benchmarks/fake_scheduling.py:410-549, 785-1088): its preemption rewrites one array of identifiers and not the other, so the invariants do not carry over.
- Restart.RestartSchedule: omits the throughput array (benchmarks/fake_scheduling.py:1381-1394), floating-point ratios of the totals that `Reports.UsefulWorkAgrees` is about.
- DependencyGraph.Validate: a request without one of the fields fails with a lookup error in the code; the model takes all of them as present.
- PlacedRuns.RunPlaced: follows a run up to the first round whose plans do not fit the machine, because placement then hands out too few GPUs and later rounds have no exact assignment to start from.
- Loading of plans that were running: the code subtracts only GPUs that are still free, so a running plan considered late may share GPUs with a new one; placement afterwards needs the total demand to fit the machine, as its results say.
- PlanStates.AdjustGpus: GPUs are exchanged as values of a finite machine; the processes, events and weights behind them are not modelled.
- The driver GPU table `model_driver_worker_gpu_i`, the execution settings sent to workers and the prints.
- `argsort` on equal costs: the model takes the order a stable sort gives; the placement results do not depend on it.
- The variant without runtime adjustment and the HybridFlow variant of the round, the external solver model, dataset builders, sampling of output lengths, and all artifact tooling besides the check of a request set.
- Sequence operations outside the block table (text offsets, forking, beam scores) and physical blocks.
