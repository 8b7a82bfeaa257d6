# Verification of the serving control plane

A Dafny model of the scheduling, cache and framing logic of the repository, and proofs about it.

| file | subject |
|---|---|
| `SimSetup`, `SimState`, `SimInvariant`, `SimPrefill`, `SimTransfer`, `SimDecode`, `SimHandlers`, `SimRuns`, `SimProgress`, `Simulator` | the discrete-event simulator as a state machine: conservation, no stall, termination, bounded service |
| `SimTimes`, `SimEffects`, `SimRouting`, `SimRates` | its stamps, due times, order of service, routes and learned rates, told by the events alone |
| `Policy`, `PolicyOrders`, `Sorting` | queue ordering; optimality of Moore-Hodgson and of earliest deadline first |
| `Prefill`, `PrefillLaws`, `PrefillPicks`, `PrefillOrders`, `PrefillRuns` | deadline-feasible batch assembly: which requests, in which order; tiling and draining |
| `Decode`, `Admission`, `Steering`, `Cost` | latency tolerance, the AIMD controller, decode admission, cost curves |
| `Decide`, `DecideRaw` | the once-per-step admission decision |
| `RadixTree`, `Radix`, `RadixRuns` | the arena radix index, and whole runs of it |
| `Pool`, `PoolLaws`, `PoolAge`, `Prefix`, `PrefixRuns` | the block pool and the prefix cache that shares its pages |
| `SseFrames`, `SseEnd`, `SsePrint` | incremental event-stream framing (section 9.2.5 of the WHATWG HTML Living Standard) |
| `Reshard`, `Csv`, `Common` | KV-head resharding, the CSV reader, shared vocabulary |

Objects that the repository updates in place are classes whose methods are proved equal to functions on
a value of their state; the lemmas are about those functions. Times and rates are reals.

The simulator's lemmas quantify over every choice the model leaves open: which workers the router
names, how much prefix was cached (short of the whole prompt), which latency a step observed, and the
order in which a hash table yields its entries. Its configuration must have workers on both sides,
positive budgets and durations, no more watermark than blocks, and must serve the requests that
Moore-Hodgson gives up (`SimSetup.ConfigureOkIff`); `SimRuns.ArrivalStartsIff`, `PrefillLaws.PlanEmptyIff` and
`PrefillRuns.LateRequestIsStarved` show what happens otherwise. `SimInvariant.Base` is the invariant: a
map gives each live request its one place, another gives each client its one request, and the pending
events are exactly those the workers wait for.

## Findings

- `crates/kvcache/src/radix.rs:111-112` says that workers with no overlap are absent from
  `match_workers`; the code reports them with zero, because the root holds every worker that inserted
  anything. `Radix.ReportedZeroIff` says exactly when; for instance `Radix.ForeignPrompt`.
- `crates/sched/src/policy.rs:116-117` hopes that demoted work may still be on time behind the accepted
  jobs. By the estimates it never is: `Policy.DemotedStayLate`.
- How a stream ends depends on chunking when a CRLF that closes the last frame is cut in two: the lone
  line feed left over is reported as a partial frame (`crates/wire/src/transport.rs:158-167`).
  `SseEnd.EndIsSteadyIff` gives the exact condition; for instance `SseEnd.LastLineFeedApart`.
- `Reshard::plan` checks divisibility only for degrees above the head count; below it a degree that
  does not divide is accepted and the plan names ranks that do not exist
  (`crates/transfer/src/reshard.rs:62-73`): `Reshard.RanksExistIffEven`, for instance
  `Reshard.UnevenPlanOverruns`.
- Releasing a reference that is not held lists a block twice (`crates/kvcache/src/pool.rs:144-154`):
  `PoolLaws.ReleaseKeepsIff`, for instance `PoolLaws.SecondReleaseDoubles`.
- Re-indexing a block under a new hash leaves the old hash behind
  (`crates/kvcache/src/prefix.rs:146-161`): `PrefixLaws.PublishKeepsInverseIff`,
  `PrefixLaws.InsertKeepsInverseIff`, for instance `PrefixLaws.RepublishedUnderTwo`.
- Allocation may hand out a cached block that is still indexed (`crates/kvcache/src/pool.rs:124-130`); a
  lookup of its old prompt then hits and returns a page filled for another
  (`PrefixLaws.StalePageIsServed`). It goes wrong exactly when one of the next blocks of the supply is
  indexed (`PrefixLaws.ReuseKeepsTruthIff`); callers who forget before reuse are safe over every run
  (`PrefixRuns.RunsServeTruth`).
- `back_off` lowers the cap even after the controller has given up
  (`crates/sched/src/decode.rs:332-334`): `ItlControl.BackOffKeepsOpenIff`, for instance
  `ItlControl.BackOffHoldsBack`.
- The simulator's last-token rule counts one token a step (`crates/sched/src/decode.rs:645-654`), so a
  speculating sequence can stay in the batch for one more step with nothing left to emit:
  `DecodeState.SpeculationLingersIff`, for instance `DecodeState.BookedToItsEnd`.
- A request whose blocks do not fit above the watermark of an empty worker is never refused for good: the
  worker tries again for ever (`crates/sim/src/sim.rs:393-402`), and since all requests are alike nothing
  is ever served: `SimProgress.RetriesForeverIff`, `SimProgress.OversizedNeverServed`. If it fits, it is
  served within a bounded number of steps: `SimProgress.HandedOffAreServed`.

## Main results

- The simulator: `SimRuns.RunsConserve`, `SimRuns.RunsAreBounded`, `SimRuns.RunsAreDetermined`,
  `SimTimes.RunsAreStamped`, `SimEffects.FireMakesDue`, `SimRouting.RunsAreRouted`,
  `SimRates.RatesStayReachable`, `SimProgress.HandedOffAreServed`, `Simulators.Simulator.Run`.
- Scheduling: `Policy.MooreHodgsonOptimal`, `PolicyOrders.EdfIsLeastLate`, `PrefillPicks.PlanIsTheOnly`,
  `PrefillPicks.PlanIsMaximal`, `PrefillOrders.GivesUpFewest`, `PrefillLaws.PlanIsFeasible`,
  `PrefillRuns.ChunksTile`, `PrefillRuns.QueueDrains`, `RunningSeqs.ToleranceIsThreshold`,
  `ItlControl.ThrottlingIsBounded`, `Steering.CoolRunRaises`, `Steering.ProbeDecides`,
  `DecideRaw.DecisionIsExact`, `DecideRaw.NoneLeftFits`, `Decide.RanksAgree`.
- Caches: `Radix.RadixIndex.MatchWorkers`, `RadixRuns.RunsMatch`, `RadixRuns.PruningIsExact`,
  `PoolLaws.RunsStaySound`, `PoolAge.OldestGoesFirst`, `PrefixRuns.RunsServeTruth`.
- Framing and data: `SsePrint.ReadingUndoesWriting`, `SseLaws.ChunkingIsIrrelevant`,
  `SseEnd.EndIsSteadyIff`, `Csv.ParsingUndoesPrinting`, `Reshard.PlanServes`.

The functions that the methods are proved equal to are pinned by laws on their inputs and results that use
none of the functions' own helpers: a batch, a decision, an ordering, a printed stream and a stamp are each
characterised from the raw queue, arrays, text or events.

## Model

| member | source | states |
|---|---|---|
| `SimRuns.RunsConserve` | crates/sim/src/sim.rs:225-250 | over every run the whole invariant holds, and so: each client waits or has one live request; each live request stands in exactly one queue, event or batch of a worker that exists, and the event that moves it is pending; a worker is busy exactly when its batch end or next step is pending; issued minus scored is live; busy buffers equal pending landings; the batch holds exactly the held blocks, and free plus held equal the total with the watermark kept; every scored request got exactly its tokens; nothing runnable is at rest, and with a client the heap is never empty |
| `SimRuns.RunsAreDetermined` | crates/sim/src/events.rs:17-41 | two runs that make the same open choices are the same run: ties in time are broken by insertion |
| `SimSetup.ConfigureOkIff` | crates/sim/src/sim.rs:87-140 | which settings build a configuration that these laws cover: workers on both sides, positive budgets and durations, no more reserve than blocks, given-up requests served or not singled out |
| `SimRuns.RunsAreBounded` | crates/sim/src/sim.rs:236-247 | every run fires at most (delays that fit before the horizon) times (what can be pending) events, for any routing, any observed latency and any table order |
| `SimRuns.TimeMovesForward` | crates/sim/src/sim.rs:236-240 | time never goes backwards and never passes the horizon |
| `SimRuns.FireKeeps` | crates/sim/src/sim.rs:236-247 | one event, whatever its kind, keeps the whole invariant and schedules nothing sooner than the minimum delay, except waking a decode worker when KV lands |
| `SimRuns.NeverStalls` | crates/sim/src/sim.rs:236-247 | with at least one client an event is always pending |
| `SimRuns.LiveHasEvent` | crates/sim/src/sim.rs:301-425 | wherever a live request is, the event that moves it is pending, or a landing that frees the buffer it waits for |
| `SimRuns.SomethingFires` | crates/sim/src/sim.rs:236-247 | whatever is earliest can be handled: no handler gets stuck |
| `SimRuns.BusyIsInFlight` | crates/sim/src/sim.rs:366-381 | the busy-buffer count equals the number of pending landings and never exceeds the buffers |
| `SimRuns.HeapBound` | crates/sim/src/sim.rs:216-223 | at most one arrival a client, one batch end a prefill worker, one step a decode worker and one landing a buffer are pending |
| `SimRuns.FireBurns` | crates/sim/src/sim.rs:236-247 | every event before the horizon lowers a bound made of the delays that still fit and the events due within the present one |
| `SimRuns.ArrivalStartsIff` | crates/sim/src/sim.rs:282-297 | an idle worker starts on an arriving request exactly when the cached prefix leaves a token to compute |
| `SimRuns.StartSettled` | crates/sim/src/sim.rs:232-234 | releasing every client once establishes the invariant |
| `SimHandlers.ArrivalKeeps` | crates/sim/src/sim.rs:252-299 | an arrival ends with its prefill worker busy or its queue empty and everything else in place |
| `SimHandlers.PrefillDoneKeeps` | crates/sim/src/sim.rs:339-363 | a finished batch hands every completed request to the transfer queue once, fills the free buffers and restarts the worker |
| `SimHandlers.KvArrivedKeeps` | crates/sim/src/sim.rs:377-387 | a landing frees its buffer for the next transfer, queues the request at its decode worker and leaves that worker with a step coming |
| `SimHandlers.DecodeStepKeeps` | crates/sim/src/sim.rs:389-425 | a decode step admits, advances, retires and releases, and leaves the worker with a step coming or nothing to do |
| `SimPrefill.StartKeeps` | crates/sim/src/sim.rs:301-337 | planning on an idle worker leaves it busy with a batch that fits its queue, or its queue empty |
| `SimPrefill.PlanKeeps` | crates/sim/src/sim.rs:301-309 | with given-up work served and positive budgets, a plan is empty only when the queue is |
| `SimPrefill.CompleteKeeps` | crates/sim/src/sim.rs:339-345 | completing the running batch removes exactly the requests it finishes, even when others were queued meanwhile |
| `SimTransfer.DrainServes` | crates/sim/src/sim.rs:366-375 | draining stops only when the buffers or the queue run out |
| `SimTransfer.HandOffAllKeeps` | crates/sim/src/sim.rs:347-360 | every finished request leaves prefill and queues for transfer exactly once, with a first-token stamp; that the stamp is the time of the event is SimTimes.FirstTokenIff |
| `SimDecode.AdmitAllKeeps` | crates/sim/src/sim.rs:427-451 | admission moves requests from the pending queue to the batch without losing any and never takes blocks below the watermark |
| `SimDecode.AdmitTurn` | crates/sim/src/sim.rs:427-437 | every queued request is known, so the branch that skips an unknown one is never taken |
| `SimDecode.StepKeeps` | crates/sim/src/sim.rs:407-420 | exactly the sequences on their last token leave the batch, each with all its tokens |
| `SimDecode.RetireKeeps` | crates/sim/src/sim.rs:453-472 | retiring gives back exactly the blocks held, scores the request and releases its client |
| `SimInvariant.PopKeeps` | crates/sim/src/events.rs:36-41 | popping the earliest event never moves time back |
| `SimInvariant.DelayIsLeast` | crates/engine/src/cost.rs:52-57 | every batch, transfer and step lasts at least one common positive delay |
| `Simulators.Simulator.OnArrival` | crates/sim/src/sim.rs:252-299 | is the arrival step of the state machine |
| `Simulators.Simulator.TryStartPrefill` | crates/sim/src/sim.rs:301-337 | plans on an idle worker and starts a non-empty batch |
| `Simulators.Simulator.OnPrefillDone` | crates/sim/src/sim.rs:339-363 | is the batch-end step, of which SimTimes.FirstTokenIff, SimRates.LearnsTheCurve and SimEffects.FireMakesDue say what it stamps, learns and makes due |
| `Simulators.Simulator.DrainXferQueue` | crates/sim/src/sim.rs:366-375 | reaches the drained state of the machine: no buffer is free or nothing is queued |
| `Simulators.Simulator.OnKvArrived` | crates/sim/src/sim.rs:377-387 | is the landing step |
| `Simulators.Simulator.AdmitDecode` | crates/sim/src/sim.rs:427-451 | admits from the head of the pending queue until refused |
| `Simulators.Simulator.OnDecodeStep` | crates/sim/src/sim.rs:389-425 | is the decode step, for some observed latency and some order of the table |
| `Simulators.Simulator.Retire` | crates/sim/src/sim.rs:453-472 | gives back blocks, scores and releases the client |
| `Simulators.Simulator.Push` | crates/sim/src/sim.rs:216-223 | adds an event with the next insertion number |
| `Simulators.Simulator.PopEarliest` | crates/sim/src/events.rs:36-41 | takes an event that no other precedes by time, then insertion |
| `Simulators.Simulator.Run` | crates/sim/src/sim.rs:225-250 | ends, within the bound on events, at the first event beyond the horizon, never for want of events when there is a client, and leaves everything conserved |
| `SimProgress.HandedOffAreServed` | crates/sim/src/sim.rs:389-472 | over every run, if the blocks of a request fit above the watermark, each one queued or running at a decode worker is scored and gone once the worker has taken one span of steps (the tokens asked for, at least one) for it and for each request queued with it |
| `SimProgress.OversizedNeverServed` | crates/sim/src/sim.rs:389-446 | over every run, if they do not fit, nothing is ever scored |
| `SimProgress.RetriesForeverIff` | crates/sim/src/sim.rs:389-402 | after an admission pass an empty batch has requests left in its queue, and so only tries again, exactly when there were any and their blocks do not fit |
| `SimProgress.EmptyBatchAdmitsIff` | crates/sim/src/sim.rs:427-438 | an empty batch takes a request exactly when its blocks fit above the watermark |
| `SimProgress.AdmitAllWithin` | crates/sim/src/sim.rs:427-451 | an admission pass brings no request at the worker further from its end, and leaves an empty batch only if nothing is queued or nothing fits |
| `SimProgress.NearerWithin` | crates/sim/src/sim.rs:407-425 | a step of the batch brings every request at the worker, queued or running, one step nearer its end |
| `SimTimes.StampsAreTrue` | crates/sim/src/sim.rs:252-472 | over every trace, told by the events and the queues alone: each live request carries the time of the arrival that issued it and, once the end of its batch has taken it off its prefill queue, the time of that event; each scored one carries these two and the end of the step that was its last |
| `SimTimes.RunsAreStamped` | crates/sim/src/sim.rs:225-250 | the same over every run up to the horizon |
| `SimTimes.FirstTokenIff` | crates/sim/src/sim.rs:347-360 | an event changes the first-token stamp of a live request if and only if it ends a batch that takes it off its prefill queue, and then from none to the time of the event |
| `SimTimes.FireTimes` | crates/sim/src/sim.rs:236-247 | whatever fires, the stamps in the state stay those that the events tell, and requests that a decode step ends are ended at the moment the next step of that worker is due |
| `SimEffects.FireMakesDue` | crates/sim/src/sim.rs:301-472 | whatever fires, everything it makes due is due at exactly the time its cost gives: a batch at the time of its curve for its tokens and members, a landing at the transfer time, a woken worker at once, the next step or a retry at the time of the step curve, and a client when its request has just ended |
| `SimEffects.ArrivalQueues` | crates/sim/src/sim.rs:252-299 | an arrival records the request of its client and queues what the cache does not cover, due a first token within the budget, at the worker the router named |
| `SimEffects.HandedOverInOrder` | crates/sim/src/sim.rs:347-360 | the finished requests of a batch queue for transfer in order behind those that wait, each bound for its own decode worker |
| `SimEffects.TransfersStartInOrder` | crates/sim/src/sim.rs:366-375 | transfers start from the head of the queue, as many as there are free buffers and waiting requests |
| `SimEffects.LandedJoinsLast` | crates/sim/src/sim.rs:377-387 | a landed request joins the queue of its worker at the end, and that worker has a step coming |
| `SimEffects.AdmittedInOrder` | crates/sim/src/sim.rs:427-451 | requests enter the batch from the head of the queue, each with one token out at its first-token time and its clock running from now |
| `SimEffects.PassIsCounted` | crates/sim/src/sim.rs:427-451 | an admission pass counts one admission for each request that leaves the queue and one refusal if any stay |
| `SimEffects.ReleasedAtZero` | crates/sim/src/sim.rs:232-234 | every client is released exactly once, at time zero |
| `SimRouting.RunsAreRouted` | crates/sim/src/sim.rs:339-425 | over every run, the transfer, queue or batch that holds a live request is on the decode worker that the router named for it |
| `SimRates.LearnsTheCurve` | crates/sim/src/sim.rs:339-345 | when a batch ends, its worker folds in exactly the rate that the cost curve gives a batch of that size |
| `SimRates.RatesStayReachable` | crates/sim/src/sim.rs:301-345 | over every run each pending batch end is due when the curve says, counted from when the batch started, and no estimated rate leaves the range between nothing and the peak of the curve |
| `SimProgress.AdmissionStaysBelowCap` | crates/sim/src/sim.rs:427-451 | from any state, a pass that enlarges the batch of a worker leaves fewer running than one more than the cap of that moment, so each admission found fewer than the cap |
| `SimSetup.BlocksForIsLeast` | crates/kvcache/src/lib.rs:29-32 | the blocks for some tokens hold them all, and one less would not |
| `SimSetup.NeedHoldsAll` | crates/sim/src/sim.rs:433-437 | what admission reserves holds the prompt and every token asked for, with less than a block to spare |
| `SimSetup.ReservedIsLeast` | crates/sim/src/sim.rs:87-140 | the watermark is the least whole number of blocks that covers its share |
| `Policy.MooreHodgsonOptimal` | crates/sched/src/policy.rs:62-128 | every accepted job is on time in the returned order, and no order of any of the jobs has more on time |
| `Policy.DemotedStayLate` | crates/sched/src/policy.rs:116-122 | served behind the accepted jobs, no demoted job is on time: the comment that one may still squeak in holds only if the estimates are wrong or work is cancelled |
| `Policy.OrderingIsPermutation` | crates/sched/src/policy.rs:36-60 | under all three policies the two parts together are a permutation of the input |
| `Policy.DemotesNothingIff` | crates/sched/src/policy.rs:81-128 | nothing is given up exactly when some order of all jobs is on time throughout |
| `Policy.WalkFeasible` | crates/sched/src/policy.rs:93-114 | the accepted jobs stay on time after every eviction |
| `Policy.WalkDominates` | crates/sched/src/policy.rs:93-114 | after every prefix of the walk, no feasible choice of the jobs seen is larger or, size for size, cheaper |
| `Policy.RunMooreHodgson` | crates/sched/src/policy.rs:81-128 | the clock-and-evict loop computes the specified schedule |
| `Policy.OrderJobs` | crates/sched/src/policy.rs:36-60 | is the ordering of which PolicyOrders.FcfsByArrival, EdfByDeadline and MooreHodgsonServes say the order under each policy |
| `Policy.FindLongest` | crates/sched/src/policy.rs:97-106 | finds the longest accepted job, ties to the later deadline, then the larger id |
| `PolicyOrders.FcfsByArrival` | crates/sched/src/policy.rs:38-45 | first come, first served lists every job once, by arrival and then id, and gives up none |
| `PolicyOrders.EdfByDeadline` | crates/sched/src/policy.rs:46-53 | earliest deadline first lists every job once, by deadline and then id, and gives up none |
| `PolicyOrders.EdfIsLeastLate` | crates/sched/src/policy.rs:46-53 | whatever greatest lateness some order of all the jobs has, the order by deadline has no greater; so it is on time throughout if any order is |
| `PolicyOrders.MooreHodgsonServes` | crates/sched/src/policy.rs:81-128 | both parts of the Moore-Hodgson order are by deadline, then id; the first is on time throughout; and no order of any of the jobs has more on time |
| `PolicyOrders.EvictsTheLongest` | crates/sched/src/policy.rs:97-106 | the job evicted takes longest, of those is due last, and of those has the largest id |
| `PrefillLaws.PlanIsFeasible` | crates/sched/src/prefill.rs:194-280 | budgets are kept, members are distinct, queued and cut where they stand, and a batch of two or more ends by the deadline of every member not given up |
| `PrefillLaws.PlanEmptyIff` | crates/sched/src/prefill.rs:219-270 | a plan is empty exactly when a budget is zero or nothing it is willing to serve has tokens left |
| `PrefillLaws.AllOffered` | crates/sched/src/prefill.rs:212-224 | every queued request is offered unless given-up work is dropped |
| `PrefillLaws.OrderingCoversQueue` | crates/sched/src/prefill.rs:200-211 | the ordering lists every queued request once |
| `PrefillLaws.CompleteMoves` | crates/sched/src/prefill.rs:172-191 | completing any batch that fits the queue advances its members, removes exactly the finished ones and reports exactly those |
| `PrefillLaws.FinishedOnce` | crates/sched/src/prefill.rs:178-186 | no request is reported finished twice |
| `PrefillLaws.RoundMovesBatch` | crates/sched/src/prefill.rs:172-280 | a plan followed by its completion moves exactly the planned chunks |
| `PrefillRuns.RoundServesItsTokens` | crates/sched/src/prefill.rs:138-191 | a round lowers the queued tokens by exactly the size of its batch |
| `PrefillRuns.QueueDrains` | crates/sched/src/prefill.rs:172-280 | without arrivals, as many rounds as queued tokens serve all that have any |
| `PrefillRuns.ChunksTile` | crates/sched/src/prefill.rs:172-280 | over any run of submissions, cancellations and rounds, the chunks of each request are contiguous from its start to where it stands, and only the last chunk of a finished one completes it |
| `PrefillRuns.GivenUpIsNotServed` | crates/sched/src/prefill.rs:226-230 | with given-up work dropped, no such request is in the batch |
| `PrefillRuns.LateRequestIsStarved` | crates/sched/src/prefill.rs:226-230 | for instance a single late request is then never served |
| `PrefillPicks.PlanAssembles` | crates/sched/src/prefill.rs:194-280 | exactly which requests a batch holds, how much of each and in what order: walking the offered requests, each that has tokens left, with room in both budgets, is taken with all that is left of it or of the token budget, unless the batch would then end after the deadline of a member not given up or its own; a given-up request refused ends the walk; and the batch is marked deadline-limited exactly if some request was refused for lateness |
| `PrefillPicks.PlanIsTheOnly` | crates/sched/src/prefill.rs:194-280 | a list of chunks and a mark satisfy that law if and only if they are the planned ones |
| `PrefillPicks.PlanIsMaximal` | crates/sched/src/prefill.rs:236-270 | for every queued request that is not given up, has tokens left and is not in the batch: a budget is used up, or with as much of it as the token budget takes the batch would end after its deadline or that of a member not given up |
| `PrefillPicks.GivenUpPassIsMaximal` | crates/sched/src/prefill.rs:236-270 | for every request given up, offered and left out, the same with the members not given up alone, or an earlier given-up one already was too late |
| `PrefillPicks.MembersKeepOrder` | crates/sched/src/prefill.rs:236-270 | members of the batch stand in the order in which they were offered |
| `PrefillOrders.OfferedInOrder` | crates/sched/src/prefill.rs:200-224 | requests are offered by arrival and id, or by deadline and id in each part, as the policy says, read off the queue |
| `PrefillOrders.GivesUpFewest` | crates/sched/src/prefill.rs:200-224 | computed one after another at the estimated rate, all that Moore-Hodgson keeps are in time, and no choice and order of queued requests has more in time |
| `PrefillOrders.RecordsTheGivenUp` | crates/sched/src/prefill.rs:213-217 | the requests recorded as given up are a smallest set without which all others can be in time; none under another policy or when given-up work is dropped |
| `PrefillLaws.FlagsForetell` | crates/sched/src/prefill.rs:172-186 | completing a batch reports exactly the requests whose chunks the plan flagged as their last, in batch order |
| `PrefillLaws.RateFollows` | crates/sched/src/prefill.rs:172-178 | completion moves the estimated rate from where it was towards the observed one, by the configured share clamped to none and all, and not at all for an empty or instant batch |
| `Prefill.PrefillScheduler.Enqueue` | crates/sched/src/prefill.rs:147-151 | queues, replacing an entry of the same id in place |
| `Prefill.PrefillScheduler.Remove` | crates/sched/src/prefill.rs:153-157 | removes from queue, order and demoted set |
| `Prefill.PrefillScheduler.Complete` | crates/sched/src/prefill.rs:172-191 | advances, removes and reports the finished, and folds in the observed rate |
| `Prefill.PrefillScheduler.Plan` | crates/sched/src/prefill.rs:194-280 | is the batch that PrefillPicks.PlanIsTheOnly characterises, and records the set that PrefillOrders.RecordsTheGivenUp does |
| `Prefill.PrefillScheduler.Pass` | crates/sched/src/prefill.rs:236-270 | is one pass over offered requests, of which PrefillPicks.PlanAssembles says which it takes, refuses and stops at |
| `Radix.RadixIndex.MatchWorkers` | crates/kvcache/src/radix.rs:113-139 | for every worker that inserted anything, its longest common prefix with the query over all its accepted strings; a worker with none in common is reported with zero, where the comment says it is absent |
| `Radix.RadixIndex.MatchWorker` | crates/kvcache/src/radix.rs:142-147 | the longest overlap of that worker, zero if it has inserted nothing |
| `Radix.RadixIndex.Insert` | crates/kvcache/src/radix.rs:80-109 | an accepted insertion adds exactly that string for that worker and at most two nodes; a refused one changes nothing; the arena never exceeds its limit by more than one |
| `Radix.RadixIndex.ForgetWorker` | crates/kvcache/src/radix.rs:151-155 | drops every string of that worker and of no other, keeping all nodes |
| `Radix.RadixIndex.Prune` | crates/kvcache/src/radix.rs:163-174 | removes only stale nodes and leaves no stale leaf; where no node was used after its parent, what survives is exactly the root and the fresh nodes, with their paths, edges and workers |
| `Radix.RadixIndex.Detach` | crates/kvcache/src/radix.rs:198-211 | swap-removal computes the tree without that leaf |
| `Radix.RadixIndex.Split` | crates/kvcache/src/radix.rs:183-194 | splitting an edge computes the specified tree |
| `Radix.RadixIndex.Descend` | crates/kvcache/src/radix.rs:91-108 | following or splitting an edge teaches the index exactly the part of the string matched so far |
| `Radix.RadixIndex.FindParent` | crates/kvcache/src/radix.rs:213-220 | finds the node and key a node hangs under, or shows there is none |
| `Radix.ReportedZeroIff` | crates/kvcache/src/radix.rs:111-139 | a worker is reported with zero exactly when it inserted something, none of it sharing its first token with the query |
| `Radix.ForeignPrompt` | crates/kvcache/src/radix.rs:111-139 | an instance: a query for [2] reports the worker that inserted only [1], with zero |
| `Radix.RadixIndex.Clear` | crates/kvcache/src/radix.rs:74-77 | forgets everything |
| `RadixTree.SplitKeepsKnowledge` | crates/kvcache/src/radix.rs:183-194 | a split changes nothing any worker is known to hold |
| `RadixTree.DetachView` | crates/kvcache/src/radix.rs:198-211 | swap-removal takes exactly one entry away: every other node keeps its path, edge, workers and time |
| `RadixTree.DetachKeepsTree` | crates/kvcache/src/radix.rs:198-211 | the arena stays one tree with unique parents |
| `RadixTree.StaleLeafBelow` | crates/kvcache/src/radix.rs:163-174 | below a stale node there is a stale leaf, so pruning never gets stuck |
| `Radix.CommonPrefixIsLongest` | crates/kvcache/src/radix.rs:230-232 | the common prefix length is where the sequences first differ or end |
| `RadixRuns.RunsStayOrderly` | crates/kvcache/src/radix.rs:74-174 | over every run of insertions, forgettings, prunings and clearings whose times never run backwards, no node was used after its parent or after the clock |
| `RadixRuns.PruningIsExact` | crates/kvcache/src/radix.rs:163-174 | so every pruning of such a run leaves exactly the root and the nodes used within the time to live |
| `RadixRuns.RunsMatch` | crates/kvcache/src/radix.rs:74-174 | after every such run the reported overlap of a worker is at least the longest over its insertions that no pruning has since found too old, and at most the longest over all its insertions since it was last forgotten; every worker with one of the former is reported |
| `RadixRuns.RunsMatchExactly` | crates/kvcache/src/radix.rs:74-174 | where nothing of a worker has expired, it is reported exactly if it has inserted something, with exactly the longest overlap over all its insertions |
| `RadixRuns.CallHolds` | crates/kvcache/src/radix.rs:80-174 | no call loses an insertion that it does not forget, clear or find too old, and none is ever dated back |
| `Radix.DescendRenews` | crates/kvcache/src/radix.rs:91-108 | on the way down, a node that is not stamped now keeps its path, edge, workers and time |
| `SseLaws.ChunkingIsIrrelevant` | crates/wire/src/transport.rs:148-180 | the events of a stream depend only on its bytes, not on how they were cut: they are those of a line-by-line reading that knows LF, CR and CRLF |
| `SseLaws.YieldIsReference` | crates/wire/src/transport.rs:148-180 | from any buffer and any offset, the buffering loop reads what the line-by-line reader reads |
| `SseEnd.EndIsSteadyIff` | crates/wire/src/transport.rs:158-167 | every way of cutting ends alike exactly when no CRLF closes a frame with nothing but line endings after it |
| `SseEnd.LastLineFeedApart` | crates/wire/src/transport.rs:158-167 | an instance: a frame closed by two CRLFs ends the stream cleanly in one piece, and leaves a partial frame when its last line feed comes on its own |
| `SsePrint.ReadingUndoesWriting` | crates/wire/src/transport.rs:148-251 | reading any cutting of any written stream gives back what was written: messages of event, data, other fields and comments, with any of the three line endings; one space after the colon is dropped, the last event field wins, the data lines are joined by line feeds, and a message without data is no event |
| `SsePrint.LineMeans` | crates/wire/src/transport.rs:224-251 | what one written line adds: a value for the event, one more line of data, or nothing |
| `SseTransport.HttpTransport.NextEvent` | crates/wire/src/transport.rs:148-180 | yields the next event of what has been and will be received, or how the stream ends; SsePrint.ReadingUndoesWriting says which events those are |
| `SseTransport.HttpTransport.NextFrame` | crates/wire/src/transport.rs:150-157 | takes the first complete frame and decodes it to the event that SsePrint.ReadingUndoesWriting gives for its lines |
| `SseTransport.HttpTransport.TakeFrame` | crates/wire/src/transport.rs:150-153 | takes exactly the bytes up to the first frame end and its delimiter |
| `SseTransport.HttpTransport.Send` | crates/wire/src/transport.rs:124-146 | starts a stream unless one is open |
| `SseTransport.HttpTransport.Cancel` | crates/wire/src/transport.rs:182-187 | drops stream and buffer |
| `SseTransport.SseFrameEnd` | crates/wire/src/transport.rs:206-217 | finds the first two adjacent line endings |
| `SseTransport.ParseSseFrame` | crates/wire/src/transport.rs:227-251 | decodes the fields of a frame as the line reader does, whose events SsePrint.ReadingUndoesWriting gives |
| `Csv.ParsingUndoesPrinting` | crates/tuner/src/csv.rs:65-97 | parsing gives back the records of any table printed per section 2 of RFC 4180, whichever fields are quoted and whether lines end in LF or CRLF |
| `Csv.LastLineEndOptionalIff` | crates/tuner/src/csv.rs:90-96 | the last line ending may be left out exactly when the last record is not one empty field |
| `Csv.ParseRecords` | crates/tuner/src/csv.rs:65-97 | the character loop computes the specified records |
| `Reshard.PlanServes` | crates/transfer/src/reshard.rs:75-103 | with dividing degrees every edge runs from an owner of its head to a rank that wants it, every wanted head arrives once, and edges number heads times replication |
| `Reshard.RanksExistIffEven` | crates/transfer/src/reshard.rs:62-85 | the plan names only existing ranks exactly when both degrees divide; degrees below the head count are not checked |
| `Reshard.UnevenPlanOverruns` | crates/transfer/src/reshard.rs:62-103 | an instance: of four heads over three ranks the last goes to rank 3 |
| `Reshard.MakePlan` | crates/transfer/src/reshard.rs:56-109 | the loops compute the specified plan or error |
| `Decide.RanksAgree` | crates/pyext/src/decide.rs:168-203 | with distinct ids the decision does not depend on the order a rank lists requests in |
| `DecideRaw.DecisionIsExact` | crates/pyext/src/decide.rs:168-291 | the whole decision on the arrays and the returned indices: each phase queue lists every request of that phase not in flight once, context and, under arrival order, generation by arrival and id, generation by tolerance and id under slack; the first of generation up to every limit are admitted; then a context request is admitted if and only if no generation is paused, it has started or the blocks reach the watermark, and its remaining prompt fits what those admitted before it leave; all others are paused, in queue order |
| `DecideRaw.NoneLeftFits` | crates/pyext/src/decide.rs:240-289 | the costs of the admitted, one for generation and the prompt not yet done for context, sum to at most the token limit and number at most the batch limit; and no paused context request that was free to start still fits beside them |
| `DecideRaw.BudgetsHold` | crates/pyext/src/decide.rs:240-289 | both budgets hold of the returned indices |
| `Decide.DecisionIsMaximal` | crates/pyext/src/decide.rs:240-289 | generation takes the first of its queue up to every limit; context is packed so that none left out, yet free to join, would fit the final batch |
| `Decide.GenerationTakesFirst` | crates/pyext/src/decide.rs:240-252 | admitted generation requests number the least of cap, batch limit, token limit and queue |
| `Decide.LeastTolerantFirst` | crates/pyext/src/decide.rs:209-230 | under slack order none admitted tolerates more than one paused |
| `Decide.EachDecidedOnce` | crates/pyext/src/decide.rs:172-188 | every request not in flight is admitted or paused exactly once, and no other |
| `Decide.DecideIndices` | crates/pyext/src/decide.rs:172-291 | returns the indices of which DecideRaw.DecisionIsExact says exactly what they are |
| `PoolLaws.RunsStaySound` | crates/kvcache/src/pool.rs:115-199 | over any run of callers that release only what they hold, free, cached and referenced blocks partition the pool and each count is the number of references held |
| `PoolAge.OldestGoesFirst` | crates/kvcache/src/pool.rs:115-199 | over any such run from an empty cache, allocation touches cached blocks only once the free list is empty, and what it or an eviction takes has been waiting at least as long as every cached block it leaves |
| `PoolAge.EvictedComeFirst` | crates/kvcache/src/pool.rs:185-199 | evicted blocks are handed out next, the last evicted first, then what was free, then the rest of the cache |
| `PoolAge.AdmissionKeepsReserve` | crates/kvcache/src/pool.rs:105-113 | admission says yes exactly when the blocks can be handed out and the reserved share of all blocks is still available afterwards |
| `PoolLaws.EveryOpKeepsSound` | crates/kvcache/src/pool.rs:115-199 | each operation keeps that |
| `PoolLaws.ReleaseKeepsIff` | crates/kvcache/src/pool.rs:144-169 | releasing keeps the partition exactly when every reference handed back is held; otherwise a block is listed twice |
| `PoolLaws.SecondReleaseDoubles` | crates/kvcache/src/pool.rs:144-154 | an instance: a block held once and released twice is listed free twice |
| `PoolLaws.IncrefKeepsIff` | crates/kvcache/src/pool.rs:137-141 | taking more references keeps the partition exactly when each block is referenced already |
| `PoolLaws.ReacquireKeeps` | crates/kvcache/src/pool.rs:172-183 | reacquiring adds one reference to a live block and nothing else |
| `PoolState.TakeNGives` | crates/kvcache/src/pool.rs:115-134 | allocated blocks are distinct, were unreferenced and have one reference; no other count changes |
| `BlockPools.BlockPool.Alloc` | crates/kvcache/src/pool.rs:115-134 | hands out the blocks, or fails and changes nothing, exactly when too few are available |
| `BlockPools.BlockPool.Incref` | crates/kvcache/src/pool.rs:137-141 | adds a reference for each listed block |
| `BlockPools.BlockPool.Release` | crates/kvcache/src/pool.rs:144-154 | drops a reference for each and frees what reaches zero |
| `BlockPools.BlockPool.ReleaseToCache` | crates/kvcache/src/pool.rs:158-169 | the same, keeping what reaches zero in the cache |
| `BlockPools.BlockPool.Reacquire` | crates/kvcache/src/pool.rs:172-183 | takes a live block again, or reports that it is gone |
| `BlockPools.BlockPool.EvictCached` | crates/kvcache/src/pool.rs:187-199 | moves the oldest cached blocks to the free list |
| `PrefixLaws.LookupIsLongestPrefix` | crates/kvcache/src/prefix.rs:114-141 | without collisions, each returned block was published for exactly that prefix of the prompt, and no live block is published for the next |
| `PrefixLaws.LookupReferences` | crates/kvcache/src/prefix.rs:124-133 | without collisions each returned block gains exactly one reference and no other changes |
| `PrefixLaws.LookupIsDistinct` | crates/kvcache/src/prefix.rs:124-133 | without collisions no block is returned twice |
| `PrefixLaws.LookupDropsDead` | crates/kvcache/src/prefix.rs:127-138 | after a lookup the hash of the first miss has no entry, and no other hash or block loses one |
| `PrefixLaws.LookupAgain` | crates/kvcache/src/prefix.rs:114-141 | the same lookup again finds the same blocks and changes the index no more |
| `PrefixLaws.LookupKeepsRight` | crates/kvcache/src/prefix.rs:114-141 | dropping a dead entry keeps the maps mutually inverse and each block under the hash of its prefix |
| `PrefixLaws.PublishKeepsInverseIff` | crates/kvcache/src/prefix.rs:146-161 | publishing keeps the maps mutually inverse exactly when the block is not indexed under another hash |
| `PrefixLaws.RepublishedUnderTwo` | crates/kvcache/src/prefix.rs:146-161 | an instance: a block indexed under one hash and published under another is found under both, and leads back to the new one alone |
| `PrefixLaws.InsertKeepsInverseIff` | crates/kvcache/src/prefix.rs:146-161 | a whole insertion of different hashes keeps the maps mutually inverse exactly when its blocks are distinct and each indexed already is indexed under its own hash or one that an earlier block of the insertion takes over |
| `PrefixLaws.ForgetKeepsRight` | crates/kvcache/src/prefix.rs:164-170 | forgetting removes exactly the listed blocks from both maps |
| `PrefixLaws.ReuseKeepsTruthIff` | crates/kvcache/src/pool.rs:124-130 | allocation leaves every indexed page intact exactly when none of the next blocks of the supply is still indexed |
| `PrefixLaws.ReusedBlockHits` | crates/kvcache/src/prefix.rs:121-126 | a block handed out while indexed answers lookups of its old hash from then on |
| `PrefixLaws.StalePageIsServed` | crates/kvcache/src/pool.rs:124-130 | an instance: a lookup returns a page that has been refilled for another prompt |
| `PrefixRuns.RunsStayRight` | crates/kvcache/src/prefix.rs:109-170 | over every run of the pool and the index together that forgets before reuse, the pool stays sound, the maps mutually inverse and within the pool, and every indexed page contains the prefix it is indexed for |
| `PrefixRuns.RunsServeTruth` | crates/kvcache/src/prefix.rs:112-142 | after every such run a lookup without collisions returns distinct pages that contain exactly the first blocks of the prompt, and no live indexed page contains the next |
| `PrefixRuns.EveryOpKeepsRight` | crates/kvcache/src/prefix.rs:112-170 | each operation on pool or index keeps that |
| `PrefixRuns.CarefulRunsStayClean` | crates/kvcache/src/pool.rs:185-199 | reclaiming rather than only evicting, allocating from the free list and releasing to it only what is not indexed keeps every indexed block off the free list, and is such a run |
| `PrefixRuns.NewIsRight` | crates/kvcache/src/pool.rs:67-76 | a new pool with an empty index starts right |
| `PrefixIndex.HashesExtend` | crates/kvcache/src/prefix.rs:30-41 | the hashes of a prompt start those of every prompt it extends |
| `PrefixIndex.ComputeHashes` | crates/kvcache/src/prefix.rs:30-41 | one hash a whole block, each of the whole prefix it ends; a partial tail has none |
| `PrefixCaches.PrefixCache.Lookup` | crates/kvcache/src/prefix.rs:114-141 | the longest chain of indexed live blocks, with hits and misses counted |
| `PrefixCaches.PrefixCache.Insert` | crates/kvcache/src/prefix.rs:146-161 | publishes blocks under the hashes of the prefixes they complete |
| `PrefixCaches.PrefixCache.Forget` | crates/kvcache/src/prefix.rs:164-170 | drops the blocks from both maps |
| `RunningSeqs.ToleranceIsThreshold` | crates/sched/src/decode.rs:90-97 | however the remaining tokens come, the request is scored within its mean budget exactly when their average gap is at most the tolerance |
| `RunningSeqs.ToleranceRises` | crates/sched/src/decode.rs:80-97 | a gap within the tolerance never lowers it |
| `RunningSeqs.WithinToleranceIsNotSlow` | crates/core/src/request.rs:121-141 | if no gap exceeds the tolerance of its moment the verdict is never slow |
| `RunningSeqs.DecisionMirrorsTolerance` | crates/pyext/src/decide.rs:81-99 | the once-per-step decision computes the tolerance the sequence would have had its last token come now, so the two agree exactly then, or when nothing is left |
| `ItlControl.ThrottlingIsBounded` | crates/sched/src/decode.rs:217-328 | an unbroken hot run long enough to walk the cap to its floor ends with the controller having given up and the cap open |
| `ItlControl.CapStaysInBounds` | crates/sched/src/decode.rs:217-334 | the cap stays between its bounds |
| `ItlControl.HotObservation` | crates/sched/src/decode.rs:245-307 | a hot observation gives up or takes a tenth off the cap |
| `ItlControl.ObservationsKeepOpen` | crates/sched/src/decode.rs:314-328 | on observations alone, given up means the cap is at its ceiling |
| `ItlControl.BackOffKeepsOpenIff` | crates/sched/src/decode.rs:332-334 | a forced back-off breaks that exactly when the bounds differ |
| `ItlControl.BackOffHoldsBack` | crates/sched/src/decode.rs:332-334 | an instance: a controller that has given up at 100 is held to 90 |
| `ItlControllers.ItlController.Observe` | crates/sched/src/decode.rs:217-312 | is the specified step of the controller |
| `ItlControllers.ItlController.Throttle` | crates/sched/src/decode.rs:240-304 | is the specified reaction to a hot average |
| `ItlControllers.ItlController.GiveUp` | crates/sched/src/decode.rs:323-328 | opens the cap and stops steering |
| `ItlControllers.ItlController.BackOff` | crates/sched/src/decode.rs:332-334 | takes a tenth off the cap, down to its floor |
| `DecodeState.SyntheticStep` | crates/sched/src/decode.rs:645-654 | exactly the sequences on their last token leave, with all the tokens asked for, and every other comes nearer its end |
| `DecodeState.SequencesLeave` | crates/sched/src/decode.rs:645-654 | a sequence leaves within as many steps as it has tokens to go |
| `DecodeState.SpeculationLingersIff` | crates/sched/src/decode.rs:645-654 | a sequence stays for exactly one more step with nothing left to emit if and only if a multi-token step reached its end, as the last-token rule counts one token a step |
| `DecodeState.BookedToItsEnd` | crates/sched/src/decode.rs:645-654 | an instance: at two tokens a step, a sequence with one of its three tokens is booked to its end and runs on |
| `DecodeState.DisagreementsCountOnce` | crates/sched/src/decode.rs:565-590 | after a step exactly the running sequences that are done by our count are flagged, and each is counted once, when first flagged |
| `DecodeSchedulers.DecodeScheduler.TightestTolerance` | crates/sched/src/decode.rs:444-449 | the least tolerance among the running sequences |
| `DecodeSchedulers.DecodeScheduler.CanAdmit` | crates/sched/src/decode.rs:452-469 | refuses for want of blocks, at the cap, or when a running sequence could not absorb the observed latency |
| `DecodeSchedulers.DecodeScheduler.Note` | crates/sched/src/decode.rs:473-482 | counts the decision and backs off when it would spoil a running sequence |
| `DecodeSchedulers.DecodeScheduler.AdmitAt` | crates/sched/src/decode.rs:485-493 | starts the sequence at the later of its clock and now |
| `DecodeSchedulers.DecodeScheduler.OnStep` | crates/sched/src/decode.rs:527-591 | observes before booking tokens, retires what was reported finished, counts unknown reports and flags the overdue |
| `DecodeSchedulers.DecodeScheduler.OnStepSynthetic` | crates/sched/src/decode.rs:645-654 | advances every running sequence, in some order of the table |
| `DecodeSchedulers.DecodeScheduler.SetTokensPerStep` | crates/sched/src/decode.rs:519-521 | is at least one |
| `RunningSeqs.VerdictIs` | crates/core/src/request.rs:121-141 | the verdict in products instead of quotients: complete with all tokens, late beyond the first-token budget, slow beyond the budget for each further token, each of the five verdicts if and only if |
| `Steering.ObservationIs` | crates/sched/src/decode.rs:217-328 | what one observation does to average, cap and giving up, in numbers: nothing before eight samples or between 90 and 98 percent of the target; below, steering resumes and a cap nine tenths used rises by one; above, a tenth is shed or the controller gives up, exactly when |
| `Steering.ProbeIs` | crates/sched/src/decode.rs:245-307 | what it does to the probe window: when it begins, counts, begins again and ends |
| `Steering.ProbeDecides` | crates/sched/src/decode.rs:245-307 | after fifteen hot observations in a row the controller gives up exactly if the average has come down by less than a fiftieth, or nothing is left to shed |
| `Steering.CoolRunRaises` | crates/sched/src/decode.rs:306-311 | along a cool, utilised run the cap rises by one an observation to its ceiling, and a controller that had given up steers again |
| `Steering.QuietRunRests` | crates/sched/src/decode.rs:306-311 | along an in-between or unused run the cap stays where it is |
| `Steering.AverageApproaches` | crates/sched/src/decode.rs:217-222 | samples that stay alike draw the average towards them, a tenth of the distance each |
| `Steering.BackOffIs` | crates/sched/src/decode.rs:332-334 | a forced back-off takes a tenth off the cap, down to the floor, and changes nothing else |
| `Steering.AdmittedIff` | crates/sched/src/decode.rs:452-469 | a sequence is admitted exactly with room for its blocks, fewer running than the cap and, from eight samples on, every running sequence able to absorb 1.05 times the observed latency; and which refusal is reported otherwise |
| `Steering.DecisionsAreCounted` | crates/sched/src/decode.rs:473-482 | every decision is counted once, and only one that would spoil a running sequence touches the controller |
| `Steering.EntersAsDecided` | crates/sched/src/decode.rs:485-493 | a sequence enters with the tolerance that the once-per-step decision gives it at that moment |
| `Steering.StepsAreObserved` | crates/sched/src/decode.rs:527-560 | over a run of steps the controller is the one that a run of observations leaves, one a step, of the observed latency and the batch as it stood before the step |
| `Steering.ReportsAreCounted` | crates/sched/src/decode.rs:560-591 | exactly the running sequences reported finished leave, each once, and every report that takes nobody out is counted as unknown |
| `Cost.SharingGains` | crates/engine/src/cost.rs:45-50 | more sequences in a batch never compute slower; one computes at the plain rate, and from saturation on the whole gain is realised |
| `Cost.BatchingSavesOverhead` | crates/engine/src/cost.rs:52-57 | one batch instead of two saves exactly one overhead |
| `Cost.StepGrows` | crates/engine/src/cost.rs:104-112 | each further sequence adds the slope to a step, and past the knee the penalty times the slope on top |
| `Cost.BatchTakesTime` | crates/engine/src/cost.rs:45-57 | a batch with anything in it takes at least a positive minimum |
| `Cost.RateIsPositive` | crates/engine/src/cost.rs:45-50 | the rate lies between that of one sequence and the full gain |
| `Cost.StepTakesTime` | crates/engine/src/cost.rs:104-112 | a step takes at least the base |
| `Cost.TransferMs` | crates/sim/src/sim.rs:562-572 | a transfer takes at least half a millisecond |
| `Cost.TransferIs` | crates/sim/src/sim.rs:562-572 | and beyond that a second for each bandwidth worth of bytes, two for every element of every layer, head and token |

## Left out

- Rounding, NaN, overflow and saturation of machine numbers: durations are reals and counts are unbounded.
- The simulator's schedulers are values inside its state rather than objects of the classes that model
  them elsewhere, so aliasing between the simulator and its workers is not captured.
- Router scoring and load reports (`sync_loads`): any valid route is allowed; that routing fails when
  no worker is registered is not modelled.
- The prompt tokens and `note_prefill`: the cached prefix length is a free choice below the prompt
  length.
- Simulator statistics, utilisation, percentiles, the write-only last-token stamp of a live request,
  and the report: they feed no decision.
- The 90th-percentile latency the decode scheduler observes (`crates/sched/src/decode.rs:612-634`): any
  value is allowed.
- `BinaryHeap`, `HashMap` and `VecDeque` themselves: a set with an earliest element, maps, sequences.
- `prefill_worker.rs`, which completes a planned batch even when pages run short: not part of this model.
- HTTP, UTF-8 and JSON decoding; error texts; `RequestStream` and its flags: frames are character
  sequences and decoding stops at the event and data fields.
- `Table` lookups by column name in the CSV reader.
- The FNV constants: hashing is any fold, and freedom from collisions is assumed where needed.
- Capacity planning, calibration, remedies and verdict tables; the Python bridge; CLI and workers.
- PrefixLaws.LookupIsLongestPrefix: assumes that no two prefixes in play share a hash, which the code
  does not check.
- SseTransport.ParseSseFrame: does not model the error for bytes that are not UTF-8.
- SseTransport.HttpTransport.NextFrame: does not model that error either.
- SseTransport.HttpTransport.NextEvent: does not model that error either; a frame is dropped before it
  is decoded, so such a frame would yield the error and the ones after it as before.
- SseTransport.HttpTransport.Send: does not model a failed request or an error status.
- DecodeSchedulers.DecodeScheduler.OnStep: takes the observed latency as an input.
