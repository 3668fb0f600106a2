# Verified model of a real-time bidding stack

The repository is a small real-time bidding (RTB) exchange: C++ bid servers that turn a price distribution into
a bid, a Go engine that auctions impressions among them, and Python code that trains and evaluates the models.
This project models three linked parts of it in Dafny and proves what they keep over whole runs.

**The serving path** (`cpp-bidder/src`). `Serving.dfy` is a step system: every critical section of
`BidPipeline::process`, its callback, `MicroBatcher::submit`, the worker loop, `stop`, a model reload and the clock
is one step, and the steps of all threads interleave in any order. A ghost history records accepted jobs, popped
batches, model runs, sessions, and the calls made on the cache and the breaker, by request; no step reads it.
`ServingTally`, `ServingQueue`, `ServingDrain` and `ServingRuns` prove, for every trace: conservation of requests and
exactly-once answers; first in, first out with no lost wake-up; a bounded drain after stop; that no job is run twice.
`ServingMeaning` tells what each reply means; `ServingPaths` which way each request goes and who decides it;
`ServingResults` what reaches the breaker and the cache; `ServingReloads` which models serve, and from when. The objects themselves are classes with loops and fields (`CircuitBreaker`, `DedupCache`, `ModelSession`,
`MicroBatcher`, `BidPipeline`), each method proved against the value the step system uses; lemmas in `BidPipeline.dfy`
show that an uninterrupted `process` or callback is one of the interleavings. `AsyncServer.dfy` is a second step
system for the self-deleting call objects of the asynchronous server: transport, completion queues, one polling
thread a queue, pipeline callbacks, shutdown; `AsyncDrain.dfy` shows that no call object is stuck or leaked.
`JointServing.dfy` and `JointDrain.dfy` run the two step systems together, a bid's hand-over being an arrival and the
pipeline's `done` reaching the call object.

**The bid mathematics** (`cpp-bidder/src/bid_optimizer.cpp`, `rtb-bid-model/src`). The one-pass first-argmax, the
strategy multiplier and the interpolated CDF; the reference optimiser and regret; the remapping of variable bins to
integer prices; the budget simulators; the weekday feature. Prices and probabilities are exact reals.

**The auction engine and its store** (`go-engine/internal`). Sequential auctions over companies whose budgets are
renewed each simulated day, the pacing rule, settlement, replay scoring; the telemetry store with its counters,
ledgers, histograms and rings; and both side by side over whole runs.

`dafny verify dfyconfig.toml` checks everything.

## Where the code and its words differ

The code is modelled as it is; these are the places where a comment, a document or a neighbouring function says
something else.

- A half-open breaker admits every request (`circuit_breaker.cpp:19`); its header says one probe (`circuit_breaker.h:12`).
- `cdf_at` is 0 at bid 0 (`bid_optimizer.cpp:9`) while the argmax reports `p[0]` there (`bid_optimizer.cpp:73`); for a
  negative value this makes a strategy other than profit-max report more, without any bound by the total mass.
- Below a value of zero the served optimiser and the Python reference choose the same bid but report different profits.
- Only the first caller of `MicroBatcher::stop` waits for the drain (`micro_batcher.cpp:26`).
- The clearing price reaches every payable bid and every competitor bid, but not the bid of a company that cannot pay
  it (`engine.go:247`).
- The store's budget of a company is refreshed by its wins only (`stats.go:331`), so it lags behind a renewed day.
- Replay scores every record with the engine-wide impression value, even one that carries its own (`engine.go:435`
  against `engine.go:390-393`), and shows the shared daily budget for a company with its own (`engine.go:450`).
- Rows of the remapping matrix do not always sum to 1 as its comment says (`eval_bins_v2.py:45`); they do exactly for
  bins that are not empty and lie inside the integer cells.
- The weekday formula is one day off in January and February of year 0, which a timestamp can denote and which the
  guard lets through (`feature_store.cpp:18-25`); from March of year 0 on it is the calendar's.
- The simulator's description says bidding stops when spend would exceed the budget (`budget_eval.py:92`); the loop
  passes over that auction and goes on (`budget_eval.py:108-109`).
- The two budget loops differ on a bid of zero or less: only the simulator passes over it (`budget_eval.py:105`).
- A breaker threshold, a cache size or a worker count below one behaves exactly like one; a batch cap below one pops
  nothing, so a stop then returns only if nothing was ever accepted.

## Model

| member | source | states |
|---|---|---|
| CircuitBreakers.RunIsExplained | cpp-bidder/src/circuit_breaker.cpp:5-42 | in every timed run all three fields are functions of the history: OPEN or HALF_OPEN by whether a request was admitted since the latest failure, the count as the failures since the last success but those of a probed breaker, the time as that of the latest tripping failure; the count is exact below the threshold and never under it above |
| CircuitBreakers.ClosedExactlyBelowThreshold | cpp-bidder/src/circuit_breaker.cpp:23-42 | CLOSED exactly when fewer than the threshold failures followed the last success; once tripped, the open time is the latest failure's |
| CircuitBreakers.RefusedExactlyWhileCoolingDown | cpp-bidder/src/circuit_breaker.cpp:5-21 | a request is refused exactly when enough failures in a row happened and the latest is less than the cooldown ago, and only ever while OPEN |
| CircuitBreakers.EveryRequestAfterTheCooldownIsAdmitted | cpp-bidder/src/circuit_breaker.cpp:12-20 | no reachable state refuses forever: after one quiet cooldown every request of any series is admitted, not just one |
| CircuitBreakers.CircuitBreaker.constructor | cpp-bidder/src/circuit_breaker.h:18-19 | starts closed with an empty history |
| CircuitBreakers.CircuitBreaker.AllowRequest | cpp-bidder/src/circuit_breaker.cpp:5-21 | the answer is the one the history of failures and the clock decide; the whole new state is that of the run extended by this call |
| CircuitBreakers.CircuitBreaker.RecordSuccess | cpp-bidder/src/circuit_breaker.cpp:23-27 | the object stays in step with its run |
| CircuitBreakers.CircuitBreaker.RecordFailure | cpp-bidder/src/circuit_breaker.cpp:29-42 | the object stays in step with its run, from closed, half-open and open |
| DedupCaches.RunStaysLinked | cpp-bidder/src/dedup_cache.cpp:5-54 | over every run map keys and recency list are in bijection without repeats, within the size cap |
| DedupCaches.EvictKeepsMostRecent | cpp-bidder/src/dedup_cache.cpp:41-46 | the eviction loop keeps exactly the most recently used ids, with their entries |
| DedupCaches.RunStoresLatestPuts | cpp-bidder/src/dedup_cache.cpp:26-54 | every stored entry is its id's latest put, expiring the TTL after that put: a get never extends a life |
| DedupCaches.HitIsLatestFreshPut | cpp-bidder/src/dedup_cache.cpp:5-24 | a hit returns the decision of the latest put for that id, made less than the TTL ago |
| DedupCaches.UnexpiredIsAHitExactlyIf | cpp-bidder/src/dedup_cache.cpp:5-54 | over every run an unexpired id is a hit exactly if at no time since its last use did as many others, used since and not found stale after that, stand as the cache holds; the hit is its latest put |
| DedupCaches.FewOthersUsedIsAHit | cpp-bidder/src/dedup_cache.cpp:5-54 | so an unexpired id is a hit while fewer than the capacity of distinct other ids were used since its last use |
| DedupCaches.ManyOthersPutIsAMiss | cpp-bidder/src/dedup_cache.cpp:41-46 | from the other side: once the capacity of distinct other ids were put since its last use it is a miss |
| DedupCaches.AheadWereUsed | cpp-bidder/src/dedup_cache.cpp:18-21 | only ids used since an id's last use can stand before it in the recency list |
| DedupCaches.PutsStayAhead | cpp-bidder/src/dedup_cache.cpp:31-53 | every id put since an unexpired id's last use still stands before it |
| DedupCaches.AheadAreStanding | cpp-bidder/src/dedup_cache.cpp:5-54 | the ids before a kept id in the recency list are exactly those used since its last use and not dropped as stale |
| DedupCaches.OrderAfter | cpp-bidder/src/dedup_cache.cpp:5-54 | how any one call changes the set of ids before a kept id |
| DedupCaches.DedupCache.constructor | cpp-bidder/src/dedup_cache.h:20-21 | starts empty |
| DedupCaches.DedupCache.Lookup | cpp-bidder/src/dedup_cache.cpp:5-24 | answers with the latest fresh put exactly if the id is unexpired and was never crowded out, drops a stale entry, moves a hit to the front |
| DedupCaches.DedupCache.MakeRoom | cpp-bidder/src/dedup_cache.cpp:41-46 | the loop over the list's tail leaves the state the specification's eviction leaves |
| DedupCaches.DedupCache.Store | cpp-bidder/src/dedup_cache.cpp:26-54 | overwrites and refreshes, or evicts and inserts at the front, in step with the run |
| BidOptimizer.BestBinIsFirstBest | cpp-bidder/src/bid_optimizer.cpp:33-50 | the scan finds the first maximum, the only such bin, never above the value; bin 0 for a negative value |
| BidOptimizer.BestBinGrowsWithValue | cpp-bidder/src/bid_optimizer.cpp:33-50 | raising the impression value never lowers the chosen bin, for every non-negative distribution |
| BidOptimizer.BidGrowsWithValue | cpp-bidder/src/bid_optimizer.cpp:61-78 | nor the final scaled and clamped bid, for any fixed multiplier; the bid stays in the price range |
| BidOptimizer.LastBestCanFall | cpp-bidder/src/bid_optimizer.cpp:30-32 | the first-wins rule is needed: choosing the last of the best bins can fall when the value rises |
| BidOptimizer.ZeroingNeverChangesTheBin | cpp-bidder/src/bid_optimizer.cpp:40-44 | forcing bids above the value to zero profit does not change the first best bin for a value of at least zero |
| BidOptimizer.AlwaysBids | cpp-bidder/src/bid_optimizer.cpp:52-59 | the sit-out branch is dead for every non-negative distribution, whatever the value |
| BidOptimizer.StrategyScalesTheBestBin | cpp-bidder/src/bid_optimizer.cpp:61-69 | the bid is the first best bin times the multiplier wherever that is a price, 0 for a multiplier that is not positive, and the highest price beyond it |
| BidOptimizer.ReportIsThatOfTheBid | cpp-bidder/src/bid_optimizer.cpp:71-80 | the reported probability is the mass up to the best bin at multiplier 1 and otherwise the interpolated CDF at the bid; the reported profit is (V - bid) times it |
| BidOptimizer.CdfMeetsRunningSum | cpp-bidder/src/bid_optimizer.cpp:8-26 | the interpolated CDF equals the running sum at every integer bid from 1 on, and is 0 at 0 |
| BidOptimizer.CdfIsMonotone | cpp-bidder/src/bid_optimizer.cpp:8-26 | it never decreases and stays between 0 and the total mass |
| BidOptimizer.CdfIsLinearBetween | cpp-bidder/src/bid_optimizer.cpp:8-26 | between two integers the CDF is the straight line between their running sums; past the last bin it is the whole mass |
| BidOptimizer.ProfitMaximiserReportsTheMaximum | cpp-bidder/src/bid_optimizer.cpp:71-80 | at multiplier 1 the reported profit is the maximum over all bins |
| BidOptimizer.OffGridProfit | cpp-bidder/src/bid_optimizer.cpp:8-26 | between two bins no bid gains more than the total mass over the best bin |
| BidOptimizer.OffGridLossIsBounded | cpp-bidder/src/bid_optimizer.cpp:61-80 | under any multiplier the reported profit exceeds profit-max's by at most the total mass, exactly if the value is not negative, the multiplier is 1, or the loss at bin 0 is within the mass |
| BidOptimizer.OffGridLossCanExceedTheMass | cpp-bidder/src/bid_optimizer.cpp:9-11 | a negative value for which the bound fails |
| BidOptimizer.NegativeValueBidsZero | cpp-bidder/src/bid_optimizer.cpp:40-80 | with a negative value every strategy bids 0, and what each reports |
| BidOptimizer.InterpolatedCdf | cpp-bidder/src/bid_optimizer.cpp:8-26 | the two-loop computation is the interpolated CDF |
| BidOptimizer.OptimizeBid | cpp-bidder/src/bid_optimizer.cpp:28-82 | the one-pass loop computes the decision all results above are about |
| Regret.ServedBidMatchesReference | rtb-bid-model/src/bid_optimizer.py:64-76 | the C++ one-pass optimiser at multiplier 1 and the whole-array reference choose the same bid on every distribution and value |
| Regret.ReportedProfitMatchesReference | rtb-bid-model/src/bid_optimizer.py:69-76 | their reported profits agree exactly when the value is not negative or bin 0 has no mass |
| Regret.ReportedProfitCanDiffer | rtb-bid-model/src/bid_optimizer.py:69-76 | a distribution and a negative value for which they do not |
| Regret.RegretIsNeverNegative | rtb-bid-model/src/bid_optimizer.py:195-218 | no auction log has negative total regret, and which logs have none |
| Regret.RegretVanishesExactlyForThePerfectBid | rtb-bid-model/src/bid_optimizer.py:207-218 | pointwise: never negative, and zero exactly for a bid equal to a price below the value, or for losing (or bidding the value) otherwise |
| Regret.ExpectedRegretSplits | rtb-bid-model/src/bid_optimizer.py:195-218 | expected regret is expected oracle profit less (V - b) CDF(b): summing over prices instead of outcomes |
| Regret.BestBinMinimisesExpectedRegret | rtb-bid-model/src/bid_optimizer.py:48-76 | the bin maximising expected profit minimises model-expected regret over all real bids, above the value included |
| Regret.NegativeBidBeatsBinZero | rtb-bid-model/src/bid_optimizer.py:73-74 | for a negative value a negative bid beats the chosen bin exactly when bin 0 has mass |
| Fallback.FallbackIsShadedAndCapped | cpp-bidder/src/fallback.h:25-44 | the fallback bid is the advertiser's average price, or the default, shaded and scaled; never below 0 nor above a positive value; it promises no win and no profit |
| ModelSessions.ModelSession.constructor | cpp-bidder/src/model_session.cpp:9-26 | adopts the first model's bin count, or keeps the default of 200 when its output is not a two-dimensional shape of known width |
| ModelSessions.ModelSession.Reload | cpp-bidder/src/model_session.cpp:37-74 | one clause a cause: rejected if the candidate does not load, throws on zeros, has the wrong rank or width, or a NaN or infinity in its output, and then the serving session stays; accepted otherwise |
| ModelSessions.ModelSession.Run | cpp-bidder/src/model_session.cpp:76-104 | the copied-out array is the current session's flat output for the batch |
| MicroBatchers.SliceIsRowAlone | cpp-bidder/src/micro_batcher.cpp:81-122 | slice i of a batch's flat output is what the model gives request i alone, whatever shares the batch |
| MicroBatchers.MicroBatcher.constructor | cpp-bidder/src/micro_batcher.cpp:7-19 | starts empty and not stopping |
| MicroBatchers.MicroBatcher.Submit | cpp-bidder/src/micro_batcher.cpp:44-53 | accepted exactly when there is room and no stop; a shed job changes nothing |
| MicroBatchers.MicroBatcher.TakeBatch | cpp-bidder/src/micro_batcher.cpp:58-74 | exits exactly when stopping and empty; otherwise batch and rest are the old queue, the batch being all of it or as much as the cap allows |
| MicroBatchers.MicroBatcher.RequestStop | cpp-bidder/src/micro_batcher.cpp:23-30 | only the first caller is told to wait |
| MicroBatchers.MicroBatcher.RunBatch | cpp-bidder/src/micro_batcher.cpp:81-122 | every job is called back once, in order, with the model's answer to its own features, or with a failure when the run threw |
| MicroBatchers.MicroBatcher.FillTensors | cpp-bidder/src/micro_batcher.cpp:82-94 | the three input arrays hold the jobs' rows one after the other |
| MicroBatchers.MicroBatcher.CopyOut | cpp-bidder/src/micro_batcher.cpp:116-119 | the copied row is the slice of the flat output |
| ServingTally.RequestsAreConserved | cpp-bidder/src/bid_pipeline.cpp:33-85 | in every interleaving, at every moment: requests received = ok + cache + fallback_open + fallback_error + resource_exhausted + in process + queued + in a batch |
| ServingTally.AnsweredExactlyOnce | cpp-bidder/src/bid_pipeline.cpp:33-85 | no request is answered twice or before it arrived; it is answered exactly when it is no longer in process, queued or in a batch |
| ServingTally.TraceStaysTallied | cpp-bidder/src/micro_batcher.cpp:44-79 | each token is in exactly one place in every state of every trace |
| ServingTally.EveryReplyHasOneStatus | cpp-bidder/src/bid_pipeline.cpp:40-83 | the five status counts add up to the replies |
| ServingQueue.TraceStaysInOrder | cpp-bidder/src/micro_batcher.cpp:44-74 | popped batches followed by the queue are the accepted jobs in order; the queue stays within its cap; every batch has 1 to the cap jobs |
| ServingQueue.TakesWhatWaits | cpp-bidder/src/micro_batcher.cpp:58-74 | in every trace a worker that tests the queue waits or exits when it is empty, and otherwise takes all of it or as much as the cap allows |
| ServingQueue.TraceStaysAlert | cpp-bidder/src/micro_batcher.cpp:44-65 | no wake-up is lost: while a job is queued a worker is busy or a submitter owes its notify; no worker exits with work queued; after notify_all nobody waits |
| ServingQueue.NoJobIsStranded | cpp-bidder/src/micro_batcher.cpp:50-65 | while a job is queued some worker can step, at once or after the owed notify, which can be delivered |
| ServingDrain.StoppingOnlyShrinksWork | cpp-bidder/src/micro_batcher.cpp:23-79 | after stop no step of any thread adds work and every worker step does some |
| ServingDrain.DrainIsBounded | cpp-bidder/src/micro_batcher.cpp:23-37 | from stop on the workers take at most as many steps as there was work, however requests, reloads and further stops interleave |
| ServingDrain.DrainNeverSticks | cpp-bidder/src/micro_batcher.cpp:31-37 | until the stop has returned some worker, the notify_all or the join can proceed |
| ServingDrain.StopReturnsDrained | cpp-bidder/src/micro_batcher.cpp:31-37 | when the waiting stop returns every accepted job has been answered exactly once |
| ServingDrain.NoBatchCapNoDrain | cpp-bidder/src/micro_batcher.cpp:64-75 | with a batch cap below one nothing is ever popped, and a stop returns only if nothing was accepted |
| ServingDrain.SecondStopDoesNotWait | cpp-bidder/src/micro_batcher.cpp:25-28 | a trace in which a second stop returns while a job is queued |
| ServingRuns.EveryJobRunsOnce | cpp-bidder/src/micro_batcher.cpp:44-90 | in every interleaving an accepted job is queued, in one batch still to be run, or in one run, exactly once in all; no token is accepted twice |
| ServingRuns.RunsShareNothing | cpp-bidder/src/micro_batcher.cpp:55-90 | a job of a completed run is in no other run, not twice in its own, not in the queue, and in no batch a worker still has to run |
| ServingMeaning.TraceStaysLogged | cpp-bidder/src/bid_pipeline.cpp:33-79 | in every interleaving cache and breaker are driven by one run each in clock order, so all results about their runs hold inside the pipeline |
| ServingMeaning.TraceStaysVersioned | cpp-bidder/src/bid_pipeline.cpp:93-105 | every session that ever serves is row-wise with the adopted bin count, and the version counts the swaps |
| ServingPaths.RequestsStayOnTheirWay | cpp-bidder/src/bid_pipeline.cpp:33-85 | in every state every request stands where the answers its own calls on the cache and the breaker got have led it, with exactly the answer they call for |
| ServingPaths.TheCacheDecides | cpp-bidder/src/bid_pipeline.cpp:34-42 | a request whose id was put less than the TTL before its look-up and never crowded out since is answered with the latest put, never asks the breaker and is never accepted; any other goes on to the breaker |
| ServingPaths.TheBreakerDecides | cpp-bidder/src/bid_pipeline.cpp:44-52 | a request that asks while the breaker's history says cooling down gets the fallback bid and is never accepted; any other is accepted, shed, or about to submit |
| ServingPaths.TheRoomDecides | cpp-bidder/src/bid_pipeline.cpp:81-84 | a request that submits is accepted for good exactly if the queue is below its cap and no stop was called; otherwise it is shed with an empty decision |
| ServingResults.EveryCallHasItsRequest | cpp-bidder/src/bid_pipeline.cpp:33-79 | each call on the breaker is the one ask of one request or the one result of one job, each call on the cache one request's look-up or one job's put |
| ServingResults.EveryResultReachesTheBreaker | cpp-bidder/src/bid_pipeline.cpp:61-71 | failures recorded with the breaker are, one to one, those of the jobs of thrown runs, and successes those of successful ones, as far as their callbacks have come; every fallback_error reply has had its own failure recorded, every ok reply its own success |
| ServingResults.EveryDecisionReachesTheCache | cpp-bidder/src/bid_pipeline.cpp:71-79 | every ok decision was put once, under its request's id, before it was answered; nothing else is ever put |
| ServingReloads.ServingSessionsWereValidated | cpp-bidder/src/model_session.cpp:37-74 | every session that serves after the first was swapped in by a reload whose candidate loaded, ran on zeros, and had rank 2, the adopted width and finite output |
| ServingReloads.ReloadsDecide | cpp-bidder/src/bid_pipeline.cpp:93-105 | in every trace each such candidate is swapped in at its reload, and a reload with any other changes nothing at all, cause by cause |
| ServingReloads.SwapsTakeEffect | cpp-bidder/src/model_session.cpp:76-78 | from any moment on every run not already under way uses the model serving then or a later one, however long its jobs had waited |
| ServingMeaning.OnlyAcceptedReloadsCount | cpp-bidder/src/bid_pipeline.cpp:93-105 | in every trace the sessions that served are the first and those of exactly the accepted candidates, in order; between any two states the version rises by the accepted reloads and the session is the last of them, so rejected candidates change neither |
| ServingMeaning.TraceStaysMeant | cpp-bidder/src/bid_pipeline.cpp:33-85 | every held batch, run, cached decision and reply in every state has its origin in the history |
| ServingMeaning.RunAnswersItsBatch | cpp-bidder/src/micro_batcher.cpp:81-122 | every reply to a job of a completed run is that run's own: the model's answer by its one session, or, when it threw, a fallback for every job; no other run had any of these jobs |
| ServingMeaning.OkRepliesAreTheModelsOwn | cpp-bidder/src/micro_batcher.cpp:81-122 | for any grouping and any reloads an ok answer is what one validated session gives that request's features alone, in a run of one popped batch; every other answer to that batch came from the same run and session |
| ServingMeaning.CacheRepliesReplayTheModel | cpp-bidder/src/bid_pipeline.cpp:34-42 | a cache answer is a decision the model path computed for another request with the same id, its latest put, less than the TTL before this request's own lookup; fallback and shed answers are never replayed |
| ServingMeaning.OpenFallbacksAreCoolingDown | cpp-bidder/src/bid_pipeline.cpp:44-52 | a fallback_open answer was refused while the breaker's own history said cooling down |
| ServingMeaning.StatusTellsThePath | cpp-bidder/src/bid_pipeline.cpp:40-83 | ok and fallback_error are exactly the answers of accepted requests; fallback_error comes from the request's own batch having thrown; a shed answer is empty |
| BidPipelines.BidPipeline.constructor | cpp-bidder/src/bid_pipeline.cpp:7-31 | the fresh object shows the step system's initial state |
| BidPipelines.BidPipeline.Process | cpp-bidder/src/bid_pipeline.cpp:33-85 | all four exits, told by the histories of cache and breaker and the room in the queue: which reply is given, what the breaker is asked, what joins the queue, and what stays as it was |
| BidPipelines.BidPipeline.Complete | cpp-bidder/src/bid_pipeline.cpp:61-79 | one callback: a failed run is a failure to the breaker, puts nothing and is answered by the fallback; a successful one is a success, puts the optimised decision under the request's id and answers it |
| BidPipelines.BidPipeline.CompleteAll | cpp-bidder/src/micro_batcher.cpp:97-121 | the callbacks of a batch, in order: one reply and one breaker result each, one put for each success |
| BidPipelines.BidPipeline.WorkerRound | cpp-bidder/src/micro_batcher.cpp:55-122 | one worker round answers every popped job once, in acceptance order, from its own row or with its own fallback, and tells breaker and cache as much |
| BidPipelines.BidPipeline.ReloadModel | cpp-bidder/src/bid_pipeline.cpp:93-105 | true exactly for an accepted candidate; session and version move together or not at all |
| BidPipelines.ProcessIsItsSteps | cpp-bidder/src/bid_pipeline.cpp:33-85 | an uninterrupted `process` is a sequence of enabled steps of the step system with the same effect |
| BidPipelines.CallbackIsItsSteps | cpp-bidder/src/bid_pipeline.cpp:61-79 | so is an uninterrupted callback |
| AsyncServers.TraceStaysOwned | cpp-bidder/src/async_server.cpp:49-177 | in every interleaving each live call object has exactly one owner (transport, queue, handler, pipeline, answer), every reference is to a live object on its own queue, and the state field agrees |
| AsyncServers.OneAcceptorPerQueueAndKind | cpp-bidder/src/async_server.cpp:56-72 | while serving each completion queue has exactly one call ready to accept each RPC type; between handler runs it is registered with the transport |
| AsyncServers.AnsweredOnceFreedOnce | cpp-bidder/src/async_server.cpp:75-94 | a taken-up call has posted exactly one answer and, for a bid, one status observation by the time it is freed, and at most one before; no object is freed twice |
| AsyncServers.FreeingIsSafe | cpp-bidder/src/async_server.cpp:56-72 | a call is freed by its own queue's handler with nothing referring to it, after its handler returned and its answer was posted |
| AsyncServers.OnlyBidsFail | cpp-bidder/src/async_server.cpp:114-162 | no notification and no health check is ever answered with an error |
| AsyncServers.StartsWithAcceptors | cpp-bidder/src/async_server.cpp:198-206 | start-up seeds each queue with one acceptor per RPC type |
| AsyncDrain.RestLeaksNothing | cpp-bidder/src/async_server.cpp:56-72 | in every reachable state at rest only the acceptors registered with the transport are live and every call ever taken up was posted once and freed once, a bid observed once; with the acceptors cancelled no object is left |
| AsyncDrain.NeverStuckBeforeRest | cpp-bidder/src/async_server.cpp:49-94 | in every other reachable state some call in hand can take a step without a new RPC, a cancelled acceptor or a shutdown |
| AsyncDrain.WorkIsBounded | cpp-bidder/src/async_server.cpp:49-94 | between any two moments the calls take at most the steps they still had, plus ten for each RPC that arrived and two for each acceptor cancelled |
| AsyncDrain.TenStepsAnRpc | cpp-bidder/src/async_server.cpp:198-206 | start-up leaves nothing to do, so over a whole run the steps taken are at most ten an RPC and two a cancelled acceptor |
| JointServing.PipelineSideIsATrace | cpp-bidder/src/bid_pipeline.cpp:33-85 | in every joint run the pipeline's side is a trace of the serving system, so all results above hold behind the server |
| JointServing.TraceStaysJoined | cpp-bidder/src/async_server.cpp:75-94 | in every interleaving the calls held by the pipeline are exactly the bids it has not answered, each with its own arrival |
| JointServing.DoneAlwaysFindsItsCall | cpp-bidder/src/async_server.cpp:75-88 | whenever the pipeline runs `done`, on a caller's or a worker's thread, that request's call object is alive, not yet answered and waiting for it |
| JointServing.EveryBidIsPostedOnce | cpp-bidder/src/async_server.cpp:56-94 | accepted bids and arrivals correspond one to one; a bid is observed exactly as often as its arrival is answered, and posted as often once the posting is done: never twice |
| JointServing.DrainedMeansPosted | cpp-bidder/src/async_server.cpp:75-94 | after the stop that waits has returned and the callers have left `process`, every bid ever accepted was observed once, and posted once or is in a posting that can proceed |
| JointServing.OnlyShedBidsFail | cpp-bidder/src/async_server.cpp:80-87 | every reply of the pipeline goes out on its own call, as an error exactly if the request was shed |
| JointServing.ErrorsAreSheds | cpp-bidder/src/async_server.cpp:80-87 | and every error on the wire is that of a bid whose request was shed |
| JointDrain.DrainedMeansFreed | cpp-bidder/src/async_server.cpp:56-94 | after the stop that waits has returned and the callers have left `process`, the pipeline holds no call; once the server is at rest too, only acceptors are live and every call ever taken up was posted and freed once, a bid observed once |
| JointDrain.NoCallIsStuck | cpp-bidder/src/bid_pipeline.cpp:33-85 | in every joint state not at rest some call or request can be taken further without a new RPC: a call waiting for the pipeline is with a caller, queued with a wake-up owed or a worker busy, or in a worker's batch |
| JointDrain.CallsTakeBoundedSteps | cpp-bidder/src/async_server.cpp:49-94 | whatever the pipeline does in between, the calls' steps stay within the same bound |
| Rings.RingHoldsTheNewest | go-engine/internal/stats/stats.go:78-94 | across any number of wrap-arounds the ring from its oldest slot on is the newest samples in order, and its slots are those samples as a multiset |
| Rings.NewestFirst | go-engine/internal/stats/stats.go:734-749 | reading backwards from the slot before the oldest gives the newest samples in reverse order of recording |
| Tallies.HistogramCountsEveryItem | go-engine/internal/stats/stats.go:278 | the buckets of a histogram add up to the number of items |
| StatsStores.PriceBucketIsItsRange | go-engine/internal/stats/stats.go:238-248 | which prices, negative and very large ones included, land in which bucket |
| StatsStores.WinProbBucketIsItsRange | go-engine/internal/stats/stats.go:318-324 | which win probabilities, out of range ones included, land in which bucket |
| StatsStores.RoundedToTheNearest | go-engine/internal/stats/stats.go:806-815 | display rounding goes to the nearest multiple, halves away from zero, for either sign |
| StatsStores.UpdateCompany | go-engine/internal/stats/stats.go:290-334 | one entry's effect on its company's counters, sums, latencies and health |
| StatsStores.Store.constructor | go-engine/internal/stats/stats.go:196-210 | starts with nothing recorded |
| StatsStores.Store.SetBudget | go-engine/internal/stats/stats.go:221-236 | at any time, for a known or a new company: the budget becomes the given one and nothing else of the store moves |
| StatsStores.Store.RecordMarket | go-engine/internal/stats/stats.go:255-286 | clearing and competitor histograms after the loop over the competitor bids |
| StatsStores.Store.RecordEntry | go-engine/internal/stats/stats.go:289-335 | a paced entry counts as neither bid nor failure, a missing answer as a failure, an answer in both bid histograms |
| StatsStores.Store.Record | go-engine/internal/stats/stats.go:250-339 | the object holds exactly its history of recorded auctions, one longer |
| StatsStores.Store.EventsNewestFirst | go-engine/internal/stats/stats.go:734-749 | the feed is the last min(n, 80) recorded events in reverse order of recording |
| StatsStores.Store.PushEvent | go-engine/internal/stats/stats.go:342-376 | the trimmed event is appended, or overwrites the oldest of 80 |
| StatsStores.FeedHoldsTheEvents | go-engine/internal/stats/stats.go:342-376 | the event ring is the ring of the trimmed events of all recorded auctions |
| StatsStores.FeedTellsTheAuction | go-engine/internal/stats/stats.go:342-376 | each figure of a feed event is its own figure of the auction or of the entry, rounded to the nearest tenth or thousandth or cut to a whole number |
| StatsLedgers.LedgerGrows | go-engine/internal/stats/stats.go:290-334 | folding one entry into a company's counters is reading the ledger off the longer list of its entries |
| StatsLedgers.StoreIsItsHistory | go-engine/internal/stats/stats.go:250-339 | every counter, sum, latest value, histogram and the company order is what is read off the whole history of auctions and budget settings |
| StatsLedgers.HistogramsCountEverything | go-engine/internal/stats/stats.go:277-325 | the clearing histogram sums to the auctions, the competitor histogram to the competitor bids, the bid and win-probability histograms both to the bids |
| StatsLedgers.CompaniesShareTheBidHistogram | go-engine/internal/stats/stats.go:221-229 | companies are listed once each, and their bid counters add up to the shared bid histogram |
| StatsLedgers.BooksBalance | go-engine/internal/stats/stats.go:327-334 | every company's bids are wins plus losses, and profit plus spend is the value of its wins |
| StatsLedgers.LatencyRingsHoldTheNewest | go-engine/internal/stats/stats.go:310-315 | each latency ring holds exactly the last min(n, 512) positive samples of its company's bids, in order from the oldest slot and as a multiset |
| Auctions.LeaderIsTheFirstHighest | go-engine/internal/engine/engine.go:239-253 | the scan finds the first company with the highest payable positive bid, or none exactly when there is none |
| Auctions.TopIsTheHighest | go-engine/internal/engine/engine.go:256-264 | the competitors' top bid reaches all of them and is one of them or zero |
| Auctions.WinnerIsTheFirstHighestPayableBid | go-engine/internal/engine/engine.go:239-278 | a company wins exactly when some payable bid reaches every competitor's; the winner is the first with the highest, pays it, and the auction clears at it |
| Auctions.ClearingIsTheHighestPayable | go-engine/internal/engine/engine.go:265-269 | the clearing price is the highest of zero, the payable bids and the competitors' bids |
| Auctions.ClearingReachesEveryBidExactlyIf | go-engine/internal/engine/engine.go:245-269 | it reaches every returned bid exactly if no company outbids everyone beyond its budget |
| Auctions.UnaffordableBidCanExceedTheClearing | go-engine/internal/engine/engine.go:247 | a concrete auction in which it does not |
| AuctionRuns.CompanyInOneAuction | go-engine/internal/engine/engine.go:180-278 | an auction touches a budget at most twice: a day's start renews it, a win charges a positive bid the company could pay; when the company is benched |
| AuctionRuns.BudgetIsTheDailyLessTodaysWins | go-engine/internal/engine/engine.go:180-203 | for all bids, competitors and draws: 0 <= budget <= daily budget, and daily budget less budget is the bids won since the day began |
| AuctionRuns.TotalSpendIsBounded | go-engine/internal/engine/engine.go:180-278 | total spend after n auctions is at most a daily budget for each of the ceil(n / day) days begun |
| AuctionRuns.BenchedExactlyWhenAheadOfPace | go-engine/internal/engine/engine.go:188-203 | a company is benched exactly when its spending today exceeds a positive even share, daily budget times position over day length, and its draw exceeds share over spending; never at or behind the even-spend line, never without days |
| AuctionRuns.WinnerIsTheFirstHighestOfThoseAsked | go-engine/internal/engine/engine.go:205-278 | a benched company never wins; any other wins exactly when its own answer is positive, payable, reaches every competitor and every such answer of the others, and is the first to |
| AuctionBooks.RecordIsFaithful | go-engine/internal/engine/engine.go:280-340 | each record has one entry a company, at most one winner, which did bid, and profit plus spend equal to the value; the budgets shown are those after charging |
| AuctionBooks.EntriesTellTheCalls | go-engine/internal/engine/engine.go:205-316 | a benched company's entry is paced, not ok, and carries nothing; any other's carries exactly its own answer, or a failure if there was none; only the winner's has a profit and a spend |
| AuctionBooks.RecordTellsTheMarket | go-engine/internal/engine/engine.go:255-340 | the recorded clearing price, competitors' bids and their top, and the winner's name, the market's, or none |
| AuctionBooks.EngineAndStoreAgree | go-engine/internal/engine/engine.go:280-340 | over any run the store's wins and spend of every name are the engine's debits, bids are wins plus losses, profit plus spend is the value of the wins, and the clearing histogram sums to the auctions run |
| AuctionBooks.StoreCountsBidsAndFailures | go-engine/internal/stats/stats.go:290-302 | over any run, with distinct names, the store's bids of a company are the auctions it was asked in and answered, its failures those it was asked in and did not answer; one it sat out is neither |
| AuctionBooks.OwnDebits | go-engine/internal/engine/engine.go:271-278 | with distinct names the debits of a name are what that company paid |
| AuctionBooks.StoreBudgetIsCurrentExactlyIf | go-engine/internal/stats/stats.go:327-331 | with distinct names the store shows the engine's budget exactly while the company has never won or has won since the day began; otherwise it shows less than the renewed budget |
| AuctionBooks.StoreBudgetCanLag | go-engine/internal/stats/stats.go:327-331 | a run of two auctions, one a day, after which the store shows less than the engine holds |
| AuctionBooks.RecordedSpendIsBounded | go-engine/internal/stats/stats.go:327-332 | the spend the store shows stays within a daily budget for every day begun |
| AuctionBooks.ReplayScoresEachAlone | go-engine/internal/engine/engine.go:412-452 | a replayed company's entry carries its own answer, and it wins exactly when its positive bid reaches the recorded price, whoever else does |
| AuctionBooks.ReplayedBooksBalance | go-engine/internal/engine/engine.go:412-501 | over any replay profit plus spend is still the value of the wins, however many companies win one record |
| Engines.Company.Pace | go-engine/internal/engine/engine.go:182-202 | a company's budget and bench flag after the pacing rule, by the ratio test as written |
| Engines.PaceAll | go-engine/internal/engine/engine.go:180-203 | every company is paced against its own budget; without days nothing changes |
| Engines.Ask | go-engine/internal/engine/engine.go:205-237 | one result a company, in company order: nothing of a benched company's call, a failure without an answer, otherwise every field of the answer |
| Engines.FindWinner | go-engine/internal/engine/engine.go:239-253 | the loop finds the leader the results about winners are about |
| Engines.CompetitorTop | go-engine/internal/engine/engine.go:256-264 | the loop finds the competitors' top |
| Engines.BuildEntries | go-engine/internal/engine/engine.go:280-316 | the entries handed to the store, profit and spend of the winner included |
| Engines.Build | go-engine/internal/engine/engine.go:87-101 | one object a configured company, an own budget replacing the shared one, each made known to the store |
| Engines.Engine.constructor | go-engine/internal/engine/engine.go:79-112 | the fresh engine and its store show an opening with nothing spent |
| Engines.Engine.Settle | go-engine/internal/engine/engine.go:239-340 | only the winner is charged, and the record is that of the decided auction |
| Engines.Engine.RunAuction | go-engine/internal/engine/engine.go:171-342 | engine and store both end up exactly where the run extended by this auction puts them |
| Engines.Engine.ReplayOne | go-engine/internal/engine/engine.go:412-467 | the replay record is stored, and no company's budget or bench flag changes |
| BinRemap.LoopMissesNoCell | rtb-bid-model/src/experiments/eval_bins_v2.py:38-40 | outside the floor/ceil loop bounds no integer cell overlaps the bin |
| BinRemap.Transfer | rtb-bid-model/src/experiments/eval_bins_v2.py:32-44 | the nested loops fill the matrix with every bin's share of every cell, zero for an empty bin |
| BinRemap.RowShareIsTheCoveredShare | rtb-bid-model/src/experiments/eval_bins_v2.py:25-44 | cells neither overlap nor leave gaps: the first m receive the share of the bin up to their end |
| BinRemap.RowSumsToOneExactlyInRange | rtb-bid-model/src/experiments/eval_bins_v2.py:32-45 | for any two edges in any order a row sums to 1 exactly when its bin is not empty and lies inside the cells, never to more, and to 0 for an empty or reversed bin |
| BinRemap.RemappingPreservesTheCdf | rtb-bid-model/src/experiments/eval_bins_v2.py:46 | the mass at integers up to j is the piecewise-linear source's mass up to j + 0.5, for all edges and probabilities |
| BinRemap.SourceMassAtAnEdge | rtb-bid-model/src/experiments/eval_bins_v2.py:24-26 | for increasing edges the source CDF at an edge is the plain sum of the bins before it |
| BinRemap.InRangeMassIsKept | rtb-bid-model/src/experiments/eval_bins_v2.py:45-46 | increasing edges inside the cells lose no mass |
| BinRemap.RemappedIsADistribution | rtb-bid-model/src/experiments/eval_bins_v2.py:46-48 | the result sums to 1 exactly when the cells received at least the clip value, and its CDF is the source's relative to the mass inside the cells |
| BinRemap.NormalisingIsIdle | rtb-bid-model/src/experiments/eval_bins_v2.py:47 | for a distribution inside the cells dividing by the total changes nothing |
| Weekdays.FormulaCountsDaysExactlyIf | cpp-bidder/src/feature_store.cpp:16-27 | for every date from year 0 on the formula is the weekday reached by counting days one by one in the proleptic Gregorian calendar (section 3.2.1 of ISO 8601:2004), Monday 0, exactly if the year is positive or the month is March or later |
| Weekdays.TomorrowIsOneMore | cpp-bidder/src/feature_store.cpp:16-27 | the day count goes up by one over month ends, leap days and century years |
| Weekdays.WeekdayAdvancesExactlyIf | cpp-bidder/src/feature_store.cpp:16-27 | so the weekday moves on by one modulo seven from every date to the next, exactly except from 29 February of year 0 |
| Weekdays.FirstOfJanuary2000IsASaturday | cpp-bidder/src/feature_store.cpp:13-15 | anchors the count to a known date |
| Weekdays.StampsDecode | cpp-bidder/src/feature_store.cpp:142-146 | the truncating divisions take year, month and day back out of a date's timestamp, whatever its time of day |
| Weekdays.TimestampsCountDaysExactlyIf | cpp-bidder/src/feature_store.cpp:142-152 | the weekday feature of every timestamp that denotes a date is the calendar's, under the same exact condition |
| Weekdays.FirstOfJanuaryOfYearZeroIsWrong | cpp-bidder/src/feature_store.cpp:18-25 | a timestamp for which it is not: Sunday where the calendar has Saturday, at any time of that day |
| Weekdays.NegativeTimestampsAnswerZero | cpp-bidder/src/feature_store.cpp:16-18 | no negative timestamp reaches the formula: its month is never positive and the guard answers 0 |
| BudgetRuns.Simulate | rtb-bid-model/src/experiments/budget_eval.py:91-122 | the loop's five figures are those of the list of auctions it wins |
| BudgetRuns.NaiveRun | rtb-bid-model/src/experiments/budget_naive.py:62-78 | the early-exit loop's figures are those of the first winnable auctions the budget pays for |
| BudgetRuns.ReportGrowsByAWin | rtb-bid-model/src/experiments/budget_eval.py:107-122 | one more win adds one win, its bid to the spend, value less bid to the profit, and a click win if clicks are counted and it brought any; the mean cost is spend over wins |
| BudgetRuns.TakenExactlyWhenItFits | rtb-bid-model/src/experiments/budget_eval.py:103-115 | an auction is won exactly when its positive bid reaches the price and fits what is left |
| BudgetRuns.SpendStaysWithinBudget | rtb-bid-model/src/experiments/budget_eval.py:107-112 | spend is never negative and, once anything is won, never above the budget, for arbitrary bids |
| BudgetRuns.ConstantBidWinsTheFirstAffordable | rtb-bid-model/src/experiments/budget_eval.py:91-122 | a constant positive bid wins the first min(winnable, floor(budget / bid)) winnable auctions |
| BudgetRuns.SimulatorIsTheEarlyExit | rtb-bid-model/src/experiments/budget_naive.py:68-78 | skip-and-continue and early exit win the same auctions for every constant positive bid |
| BudgetRuns.LoopsAgreeExactlyIf | rtb-bid-model/src/experiments/budget_naive.py:68-78 | the two loops report the same exactly if the bid is positive, exceeds the budget, or wins nothing |
| BudgetRuns.LoopsCanDisagree | rtb-bid-model/src/experiments/budget_eval.py:105 | a log on which they differ: a bid of nothing and a free impression |
| BudgetRuns.MeanCostIsTheBid | rtb-bid-model/src/experiments/budget_naive.py:79 | the mean cost of a constant positive bid that wins anything is the bid |

## Left out

- Server shutdown with batches in flight against a shut-down completion queue depends on gRPC behaviour that is not visible in the sources; the call-object model has cancelled acceptors but no drained queue.
- gRPC, protobuf, ONNX Runtime, Prometheus, YAML, file watching, JSON and HTTP are parameters or arbitrary steps: a model run returns row-wise results or throws, a reload candidate loads or does not, an RPC answers or fails.
- Metrics counters and gauges, except the one status observation per bid that the call-object model counts.
- The repository's README speaks of a synchronous gRPC service; the asynchronous server of the code is modelled.
- The self-deleting call objects are a step system over a map of live tags, not heap objects: Dafny has no `delete`, and every interleaving has to be covered.
- The classes of the serving path run one call at a time; what other threads do between two of its critical sections is in the step system only.
- The batcher's tensor filling copies category and continuous rows in one inner loop; here each row is copied by its own helper loop.
- Reloads that overlap: the program reloads from its one watcher thread, so a swap and the publishing of its version are never interleaved with another reload; `reload_model` called from two threads at once could lose a version increment.
- Feature encoding (vocabularies, tags, trigonometric features) is one arbitrary function of the request; only the weekday formula is modelled.
- Rounding and overflow of floating-point numbers and of 64-bit counters: amounts are exact reals, counters unbounded.
- Pacing draws, competitor draws and model answers are arbitrary; nothing probabilistic is claimed.
- The store's per-company records are values in a map that is reassigned, where the source updates records behind pointers; no other reference to them exists in the code modelled.
- Impression mix, competitor archetypes, throughput ring, percentiles, scraped server metrics, retrainer status and the dashboard's snapshot: independent counters and output shapes.
- Event fields that are copied without change (hour, exchange, slot, domain, floor, time).
- The outcome log file, the outcome notification sent to each bidder, and rate limiting of the auction loop.
- Runs that mix live auctions and replays: the program runs one mode or the other.
- The matrix product over several rows is modelled for one row, since rows do not interact.
- The rest of the Python code: training, losses, mixture densities, Newton optimisers, ensembles, plots, calibration, retraining and export.
