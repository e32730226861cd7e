# A verified model of the task queue

The repository is a task queue on Redis. Clients enqueue tasks, dispatchers claim them for workers, workers
acknowledge, retry or archive them, and recovery loops take over tasks whose leases ran out. Everything that must
be durable happens in Lua scripts that Redis runs one at a time; everything else runs concurrently in many
processes that hold copies of messages which may have gone stale.

This project models the scripts, the processes around them, the token bucket, the timer, the retry delays and the
shutdown of a server, and proves what they promise over all runs. `dafny verify dfyconfig.toml` checks all of it.

## How it is built

The task store, from the bottom up:

- `Lexical.dfy`, `RankMember.dfy`, `Redis.dfy`: string order, the members of `pending_rank`, sorted sets and lists.
- `TaskMachine.dfy`: one queue seen abstractly. Each task has one state and one time; each script is one step.
- `Keys.dfy`, `QueueStore.dfy`: the nine Redis keys of a queue, and the scripts as methods that change them command
  by command. Each method is proved to perform the step of the abstract machine, so that whatever holds of the
  machine holds of the keys.
- `StoreRuns.dfy`, `QueueLaws.dfy`: what holds over every sequence of script calls, from any callers with any
  arguments.
- `Protocol.dfy`, `ProtocolTheorems.dfy`: clients, dispatchers, workers, recoverers and operators around the store,
  each acting on copies that may be stale; one inductive invariant and what follows.
- `Drive.dfy`: runs built on purpose, used to show that bounds are tight and conditions necessary.
- `Overrun.dfy`, `LateStart.dfy`: exactly when a task's handler can be started more often than its budget allows.
- `ReplayRuns.dfy`, `CrossedReplay.dfy`: exactly when a replay, which reads and writes separately, is as good as one
  step.
- `ServerCalls.dfy`, `ManyQueues.dfy`, `Recovery.dfy`: the Go side of single calls (Get, Claim, the end of `process`, a
  replay), of MoveReady over many queues and of the recovery loop, stated field by field.
- `Float64.dfy`, `Ranks.dfy`, `RankOrder.dfy`, `ServedOrder.dfy`: the score that orders pending tasks in float64
  arithmetic, for which priorities it keeps their order, and what that means for the tasks Claim serves.

Beside it:

- `Backoff.dfy`: retry delays in 64-bit integers.
- `TokenBucket.dfy`, `BucketRuns.dfy`: the rate limiter and its laws over runs of acquires.
- `TimerHeap.dfy`, `WheelMachine.dfy`, `TimeWheel.dfy`, `WheelRuns.dfy`: the indexed heap, the timer on it, and every
  interleaving of its users with its runner and with the dispatcher's waits.
- `Lifecycle.dfy`, `LifecycleTheorems.dfy`: the goroutines of one server from Start to Shutdown.
- `Fleet.dfy`: several servers whose dispatchers share one token bucket.

## What it assumes

- Redis runs each script without interruption, and queues do not share keys.
- Attempt ids are never drawn twice. The store's own invariant does not need this; fencing and the counts do.
- Tasks enter with retry count 0 and a retry budget of at least 0, as the client builds them. Handlers do not change
  the message they are given.
- Bucket and jitter arithmetic is over the reals. Redis's clock and the timer's clock do not go back.
- The product in the score is rounded before the sum, as it is without fused multiply-add instructions; Go may fuse
  the two on some processors, which `FusedOrderHoldsIff` covers.
- The protocol model leaves times to the processes: any clock reading is possible at any step, and so a lease may run
  out at any moment.
- A transition counts when Redis commits it.

## What came out differently

- "At most MaxRetry + 1 handler starts between a replay and the next" is not true by the clock. A dispatcher that was
  held up can hand over a copy claimed before the replay, and the handler starts once more (`LateStart` gives the
  run). The bound holds for the attempts claimed in an epoch, always (`HandlerStartsBounded`), and by the clock if
  and only if no dispatcher holds such a leftover copy when the epoch opens (`EveryEpochKeepsBudgetIff`).
- "Higher priority first" is not true of all priorities, because the score is rounded three times in float64. With
  creation times below 10^15 milliseconds a lower priority can overtake a higher one; among the priorities up to a
  limit this is excluded if and only if the limit is at most 1180593 (`OrderHoldsIff`). With creation times until the
  year 10889 no priority is ever overtaken (`RealTimesNeverInvert`), and scores of different priorities differ, so
  that the higher one is served first, if and only if the limit is at most 5070602400912925 (`StrictOrderIff`). Where
  the compiler fuses product and sum, the first limit is 2^53 (`FusedOrderHoldsIff`).
- A replay that reads a dead letter and writes it back later can put the message of a deleted record into the record
  that took its id (`CrossedReplay` gives the run). It is as good as one atomic step in every run that does not reuse
  the id while a replay of it is under way, that is, has read and not yet written (`ReplayAtomicUnlessReused`), and
  from a given state on if and only if the task is completed or all replays of it under way hold copies with the core
  of its record (`ReplayAtomicIff`). The core is the part of a message that no transition changes.
- The architecture document describes the pending list as the queue's structure with a ZSet for priorities beside
  it; the code claims by the ZSet alone, and the order of the list plays no part. The model follows the code, and
  proves that the two always hold the same tasks.

## Model

| member | source | states |
|---|---|---|
| `RankMember.DigitsOrder` | internal/redisstore/rdb.go:60 | zero-padded numbers sort as strings exactly as they sort as numbers |
| `RankMember.SequenceFits` | internal/redisstore/rdb.go:59-60 | every value the sequence counter can take fits the 20 digits |
| `RankMember.IdRoundTrip` | internal/redisstore/rdb.go:81 | cutting a rank member at character 22 recovers the id, for every id, including ids shaped like rank members |
| `RankMember.MemberInjective` | internal/redisstore/rdb.go:60 | different sequence numbers or ids give different rank members |
| `RankMember.MemberOrder` | internal/redisstore/rdb.go:60-63 | rank members of equal score sort by sequence number |
| `Redis.SortedLists` | internal/redisstore/rdb.go:97 | a listing of a sorted set holds each member once, ascending by score and then by member |
| `TaskMachine.RunWellFormed` | internal/redisstore/rdb.go:57-230 | every run of scripts keeps sequence numbers distinct and attempt ids on exactly the active tasks |
| `Keys.Located` | internal/redisstore/rdb.go:46-55 | each task sits in exactly the index its state names, once; an id no task has is in no index |
| `Keys.RankLocated` | internal/redisstore/rdb.go:63 | `pending_rank` holds exactly the rank members of pending tasks, with their ranks |
| `Keys.NextIsMin` | internal/redisstore/rdb.go:77-85 | the least entry of `pending_rank` names the pending task that is minimal by rank and sequence |
| `QueueStore.Queue.Enqueue` | internal/redisstore/rdb.go:57-65 | answers that the id exists if and only if it does, that the task is stored if and only if it does not and the counter is below its end, and then stores it pending under the next sequence number; otherwise nothing changes |
| `QueueStore.Queue.Schedule` | internal/redisstore/rdb.go:67-74 | the same answers, for a task scheduled at a given time |
| `QueueStore.Queue.Claim` | internal/redisstore/rdb.go:76-94 | hands out the head of the abstract priority queue although the script never reads a state; the fallback for foreign members is unreachable |
| `QueueStore.Queue.Promote` | internal/redisstore/rdb.go:102-113 | one due entry moves to pending at its old place; the fallbacks for missing fields are unreachable |
| `QueueStore.Queue.MoveReady` | internal/redisstore/rdb.go:96-116 | moves exactly the first due entries up to the limit and returns their number |
| `QueueStore.Queue.Ack` | internal/redisstore/rdb.go:130-138 | completes the task if and only if it is active with this attempt; otherwise all nine keys are unchanged |
| `QueueStore.Queue.ScheduleRetry` | internal/redisstore/rdb.go:140-149 | the same for a retry at a given time |
| `QueueStore.Queue.Archive` | internal/redisstore/rdb.go:151-160 | the same for a dead letter |
| `QueueStore.Queue.Requeue` | internal/redisstore/rdb.go:162-175 | the same for giving a task back with its message and place unchanged |
| `QueueStore.Queue.Replay` | internal/redisstore/rdb.go:177-188 | succeeds if and only if the task is archived, and puts it back at its old place |
| `QueueStore.Queue.Delete` | internal/redisstore/rdb.go:190-195 | removes the task if and only if it is archived |
| `QueueStore.Queue.Cleanup` | internal/redisstore/rdb.go:197-210 | removes exactly the oldest dead letters up to the limit and returns their number |
| `QueueStore.Queue.ExtendOne` | internal/redisstore/rdb.go:216-227 | extends the lease of a task held by this attempt; the ZREM for a task that is not active removes nothing |
| `QueueStore.Queue.ExtendLease` | internal/redisstore/rdb.go:212-230 | extends the leases of exactly the listed tasks that are held by the listed attempts, and returns how many listings were held |
| `QueueStore.Queue.ExecuteAll` | internal/redisstore/rdb.go:57-230 | after any sequence of script calls the keys hold the state the abstract machine reaches |
| `QueueLaws.CreateExact` | internal/redisstore/rdb.go:57-74 | a creation stores the caller's message and rank under the next number, pending or due when the caller says, or nothing at all; other tasks are as before |
| `QueueLaws.ClaimExact` | internal/redisstore/rdb.go:76-94 | a claim leaves the head active, held by the attempt until the lease ends, message and place unchanged; with nothing pending nothing changes |
| `QueueLaws.OutcomeExact` | internal/redisstore/rdb.go:130-160 | ack, retry and archive leave the holder's task completed, retrying or archived with the written message, the given time and its old place; anyone else changes nothing |
| `QueueLaws.RequeueExact` | internal/redisstore/rdb.go:162-175 | a requeue puts the holder's task back at its old place with its message unchanged; anyone else changes nothing |
| `QueueLaws.ReplayExact` | internal/redisstore/rdb.go:177-188 | a replay puts a dead letter back at its old place with the written message, and changes nothing otherwise |
| `QueueLaws.DeleteExact` | internal/redisstore/rdb.go:190-195 | a deletion removes a dead letter and nothing else |
| `QueueLaws.CleanupExact` | internal/redisstore/rdb.go:197-210 | a cleanup removes exactly the listed oldest dead letters |
| `QueueLaws.ExtendExact` | internal/redisstore/rdb.go:212-230 | a heartbeat gives the leases of exactly the listed holders their new end |
| `StoreRuns.EveryCallIsAnEdge` | internal/redisstore/rdb.go:57-230 | a call changes a task only along the edges of the state machine, creates only under fresh sequence numbers and removes only dead letters |
| `StoreRuns.CompletedIsFinal` | internal/redisstore/rdb.go:76-138 | a completed record is never changed, indexed, deleted or enqueued again |
| `StoreRuns.AckedAtMostOnce` | internal/redisstore/rdb.go:130-138 | over any run AckSuccess succeeds at most once per task |
| `StoreRuns.AttemptBalance` | internal/redisstore/rdb.go:90 | attempts in use plus attempts issued equal attempts ended plus attempts in use afterwards |
| `StoreRuns.OneOutcomePerAttempt` | internal/redisstore/rdb.go:130-175 | each attempt gets at most one successful outcome among ack, retry, archive and requeue, and is never current again |
| `StoreRuns.StaleCallsDoNothing` | internal/redisstore/rdb.go:130-175 | a call carrying an attempt that no task holds leaves the whole state unchanged |
| `QueueLaws.EndedAttemptIsFenced` | internal/redisstore/rdb.go:212-230 | once an attempt has had its outcome, any later call with it, heartbeats included, changes nothing, however the run went on |
| `StoreRuns.DeadLetterBalance` | internal/redisstore/rdb.go:177-210 | every archived episode ends in one replay or one deletion or is still open, so racing replays have one winner |
| `StoreRuns.CreationBalance` | internal/redisstore/rdb.go:57-74 | over any run the creations of an id answered as stored are its removals plus the record still there: an id is stored again only after it was removed |
| `StoreRuns.PlaceKept` | internal/redisstore/rdb.go:162-188 | a record keeps its rank and sequence number through retry, requeue and replay |
| `StoreRuns.OrderKept` | internal/redisstore/rdb.go:162-188 | two surviving tasks keep their order in the queue |
| `QueueLaws.DueIdsExact` | internal/redisstore/rdb.go:97-101 | a bounded listing holds at most `limit` due ids, each once, and whatever is left out comes later |
| `QueueLaws.MoveReadyExact` | internal/redisstore/rdb.go:96-116 | nothing moves before its millisecond, what moves leaves its index at once, the rest is untouched, and pending grows by the number moved |
| `QueueLaws.ListedIff` | internal/redisstore/rdb.go:97-101 | a bounded listing of an index holds a due task if and only if fewer than `limit` tasks of its state come before it |
| `QueueLaws.MovedInTurn` | internal/redisstore/rdb.go:96-116 | with fewer than n * limit tasks before it, a due task is pending after n calls of MoveReady |
| `QueueLaws.NextStepFindsTask` | internal/redisstore/rdb.go:76-116 | an unfinished task whose time has come is found by its next step whatever the limit of that step: enough calls of MoveReady make it pending, the claim after those before it takes it, and recovery lists it once fewer than the limit expired before it |
| `QueueLaws.ClaimServes` | internal/redisstore/rdb.go:76-94 | a claim serves a given pending task or shortens the queue before it by one |
| `QueueLaws.ServedInTurn` | internal/redisstore/rdb.go:76-94 | a pending task with n tasks before it is served by the claim number n + 1 |
| `QueueLaws.PendingCountIsExact` | internal/redisstore/rdb.go:551-553 | PendingCount is the number of pending tasks |
| `QueueLaws.Census` | internal/redisstore/rdb.go:57-230 | the number of tasks is the sum of the sizes of the indexes plus the completed records; list and sorted set agree |
| `QueueLaws.KeysDetermineMachine` | internal/redisstore/rdb.go:57-230 | the keys determine the abstract state |
| `Protocol.StepKeeps` | server/server.go:206-437 | every step of every process keeps the invariant that ties records, attempts, epochs and stale copies together |
| `Protocol.AlwaysInv` | server/server.go:206-437 | so every run keeps it |
| `Protocol.CoreIff` | model/model.go:24-43 | two messages have the same core if and only if id, type, payload, queue, priority, retry budget, timeout, deadline and creation time agree |
| `ProtocolTheorems.HandlerStartsBounded` | server/server.go:316-365 | over every run, at most MaxRetry + 1 handler starts for the attempts claimed in one epoch, and no stored retry count above its budget |
| `ProtocolTheorems.StartsDuringEpoch` | server/server.go:267-268 | by the clock, an epoch sees its budget of starts and one more for each leftover attempt |
| `ProtocolTheorems.PromptEpochsKeepBudget` | server/server.go:316-365 | an epoch opened without leftover copies keeps to its budget by the clock too |
| `LateStart.LateStartsExceedBudget` | server/server.go:267-268 | a concrete run in which an epoch sees more handler starts than MaxRetry + 1 |
| `Overrun.SpendAll` | server/server.go:316-365 | from any reachable state with a task pending, some run of the processes, with the dispatcher's limit of 100, starts a handler for each retry left and one more, so the bound is tight |
| `Overrun.LeftoverOverruns` | server/server.go:267-268 | whenever a leftover copy exists at the opening of an epoch some run exceeds the budget |
| `Overrun.BudgetHoldsIffNoLeftover` | server/server.go:316-365 | the bound by the clock holds over every continuation if and only if no leftover copy exists when the epoch opens |
| `Overrun.EveryEpochJustOpens` | internal/redisstore/rdb.go:480-505 | each successful enqueue, schedule or replay opens an epoch with the message's budget in which no handler has started |
| `Overrun.EveryEpochKeepsBudgetIff` | server/server.go:316-365 | after any run of the system, the epoch that an enqueue, schedule or replay opens keeps to MaxRetry + 1 handler starts over every continuation if and only if no dispatcher then holds a leftover copy |
| `ProtocolTheorems.MessageAdvances` | server/server.go:352-358 | outside of replays a step leaves the core of a message alone, and exactly the successful retries raise the retry count, by one, within the budget |
| `ProtocolTheorems.MeasureFalls` | server/server.go:395-437 | three per retry left plus a weight of the state falls on every transition except requeue and replay |
| `ProtocolTheorems.LifeIsBounded` | server/server.go:395-437 | without requeue or replay a task makes at most 3*MaxRetry + 3 transitions |
| `ProtocolTheorems.EveryLifeIsBounded` | server/server.go:395-437 | at any point of any run of the system a task makes at most 3*MaxRetry + 3 transitions before it is requeued, replayed or removed |
| `ProtocolTheorems.ReplayIsAtomic` | internal/redisstore/rdb.go:480-505 | one write of a copy does what an atomic replay would do if and only if the copy has the record's core |
| `ReplayRuns.ReplayAtomicUnlessReused` | internal/redisstore/rdb.go:480-505 | over every run in which the id is not deleted and created again while a replay of it is under way, a replay writes what an atomic replay would write, however often the task was replayed and archived since |
| `ReplayRuns.ReplayAtomicWhileKept` | internal/redisstore/rdb.go:480-505 | in particular over every run in which the record was never removed |
| `ReplayRuns.Bury` | server/server.go:206-437 | from every reachable state some run archives a task that is not completed |
| `ReplayRuns.ReplayAtomicIff` | internal/redisstore/rdb.go:480-505 | from a state on, a replay that has read writes what an atomic replay would write, whenever it writes before the id is reused, if and only if the task is completed or all replays of it under way hold copies with the core of its record |
| `CrossedReplay.ReplayCanCross` | internal/redisstore/rdb.go:480-505 | a concrete run in which a replay is about to write the message of a deleted record over another one |
| `ServerCalls.Get` | internal/redisstore/rdb.go:402-429 | an unknown id is not found, an active task with an empty attempt id is an error, and every other task reads as the record's state and attempt with all other fields of the stored message |
| `ServerCalls.AckedReadsCompleted` | internal/redisstore/rdb.go:402-429 | once an acknowledgement has succeeded every later reader finds the task completed, however the run goes on |
| `ServerCalls.Claim` | internal/redisstore/rdb.go:276-302 | nothing if no task is pending; otherwise the stored message of the head with state active and the new attempt id |
| `ServerCalls.ExpiredIds` | internal/redisstore/rdb.go:431-438 | the expired leases, soonest first, up to the limit |
| `ServerCalls.Process` | server/server.go:333-364 | a worker that still holds its task completes, archives or retries it as outcome and budget say, with retry count, last error, failure time, completion time and run time each as the source writes them, and touches no other task; a stale worker changes nothing |
| `Recovery.RecoverTick` | server/server.go:404-433 | one recovery tick retries or archives exactly the listed expired tasks, each with the clock and delay drawn for it, and leaves the rest alone |
| `Recovery.RecoverTickExact` | server/server.go:411-432 | after a tick each listed task is one retry further or archived with its budget spent, every field and time of the message and record as the source writes it; the rest is unchanged, and with fewer than a hundred listed no lease is left expired |
| `Recovery.RecoveredInTurn` | server/server.go:404-433 | an expired lease with fewer than 100 * n before it is ended by one of n ticks |
| `ServerCalls.ReplayDeadLetter` | internal/redisstore/rdb.go:480-505 | succeeds exactly on dead letters, which are then pending at their old place, the same task field by field, with retry history cleared and run time now; otherwise nothing changes and the error says why |
| `ManyQueues.MoveReady` | internal/redisstore/rdb.go:304-319 | every queue named is served (its due tasks are pending if within the limit, else at least the soonest up to the limit), one named once ends as its two scripts leave it, others are untouched; the result is the growth of pending, at most 2 * queues * limit |
| `Float64.RoundGrows` | internal/redisstore/rdb.go:599 | conversion to float64 never inverts an order |
| `Float64.ShiftedIsExact` | internal/redisstore/rdb.go:599 | integers of at most 53 bits, shifted by any number of bits, are exact in float64 |
| `Float64.Absorbed` | internal/redisstore/rdb.go:599 | subtracting less than a quarter of the spacing from a float64 rounds back to it |
| `Ranks.ExactOrder` | internal/redisstore/rdb.go:596-600 | before rounding, higher priority sorts first and equal priority by creation time, both ways |
| `Ranks.RankIsExact` | internal/redisstore/rdb.go:596-600 | up to priority 9 the score is the exact rank |
| `Ranks.RankNeverInverts` | internal/redisstore/rdb.go:596-600 | up to priority 295147, under any rounding that is monotone and exact on 53 bits, no order is inverted for creation times below 10^15 ms |
| `Ranks.RealTimesNeverInvert` | internal/redisstore/rdb.go:596-600 | for all priorities and all creation times below 2^48 ms the float64 score never puts a higher priority, or an equal one created earlier, behind |
| `Ranks.FloatIsRounding` | internal/redisstore/rdb.go:599 | float64 conversion has the properties that the rank laws use |
| `RankOrder.KeepsUpTo` | internal/redisstore/rdb.go:596-600 | up to priority 1180593 a task created last does not fall behind one of the next lower priority created first |
| `RankOrder.FirstInversion` | internal/redisstore/rdb.go:596-600 | priority 1180594 created at 10^15 - 1 ms falls behind priority 1180593 created at 0 |
| `RankOrder.OrderHoldsIff` | internal/redisstore/rdb.go:596-600 | among the priorities up to a limit, for all creation times below 10^15 ms, no higher priority falls behind a lower one if and only if the limit is at most 1180593 |
| `RankOrder.FirstTie` | internal/redisstore/rdb.go:596-600 | priorities 5070602400912926 and 5070602400912925 have the same score |
| `RankOrder.StrictOrderIff` | internal/redisstore/rdb.go:596-600 | among the priorities up to a limit, for all creation times below 2^48 ms, a higher priority has the strictly smaller score if and only if the limit is at most 5070602400912925 |
| `RankOrder.FusedOrderHoldsIff` | internal/redisstore/rdb.go:596-600 | where product and sum are fused, higher priority first holds among the priorities up to a limit, for all creation times below 10^15 ms, if and only if the limit is at most 2^53 |
| `ServedOrder.ClaimServesHighest` | internal/redisstore/rdb.go:76-94 | with scores as taskRank gives them, Claim serves no task while one of higher priority is pending, and passes over an older one of equal priority only on equal scores and by sequence |
| `ServedOrder.RankedRun` | internal/redisstore/rdb.go:162-188 | retries, requeues, recoveries and replays keep every score the score of the stored message, in runs that do not reuse an id while a replay of it is under way |
| `ServedOrder.HighestPriorityFirst` | internal/redisstore/rdb.go:76-94 | over every such run what Claim serves next has the highest priority of all pending tasks, and an older one of equal priority is passed over only on equal scores and by sequence |
| `Backoff.ExponentialBackoff` | server/server.go:439-460 | the loop computes min(base * 2^n, max) for all 64-bit arguments, defaults included, with no overflow |
| `Backoff.DelayMonotone` | server/server.go:439-460 | delays never shrink as retries mount up and stay between the smaller bound and the cap |
| `Backoff.DelayDefaults` | server/server.go:439-448 | a missing base is two seconds, a missing cap one hour, a negative retry count zero |
| `Backoff.JitterStaysInBounds` | server/server.go:462-483 | the jittered delay lies between delay*(1-jitter) and min(delay*(1+jitter), max) up to truncation, and is at least 1ns |
| `Backoff.DrawIsLinear` | server/server.go:478 | the draw is the lower end for 0, the upper for 1, and linear between |
| `Backoff.JitterEnds` | server/server.go:470-482 | where the cap is not in the way the ends of the band are reached, up to truncation and the floor of 1ns |
| `Backoff.NoJitter` | server/server.go:464-466 | without jitter, or with no cap given, the delay is left as it is |
| `Backoff.ExponentialBackoffWithJitter` | server/server.go:462-483 | the result is the jittered closed form, at least 1ns and at most max |
| `TokenBucket.Store.Acquire` | internal/limiter/bucket.go:82-117 | grants if and only if the refilled level covers the amount, keeps and reports what is left, answers a year when nothing drips in, refuses amounts that are not positive, and keeps the expiry in step |
| `TokenBucket.LevelInRange` | internal/limiter/bucket.go:94-96 | the level stays between 0 and the capacity |
| `TokenBucket.GainReaches` | internal/limiter/bucket.go:103 | the rounded-up quotient is the least number of milliseconds that drips in a given amount |
| `TokenBucket.TtlFillsTwice` | internal/limiter/bucket.go:108 | the key lives exactly as long as it takes to fill the bucket twice |
| `BucketRuns.ExpiryUnobservable` | internal/limiter/bucket.go:87-108 | any run of acquires gets the same replies whether or not Redis drops the key when its time to live is over |
| `BucketRuns.GrantsBalance` | internal/limiter/bucket.go:94-110 | tokens granted over a run are at most what was there plus what dripped in |
| `BucketRuns.GrantsWithinRate` | internal/limiter/bucket.go:94-110 | in any stretch of any run at most the capacity plus rate times elapsed time is granted |
| `BucketRuns.RefillComposes` | internal/limiter/bucket.go:94-96 | refilling in two steps through the cap equals refilling in one |
| `BucketRuns.DenialsLeaveNoTrace` | internal/limiter/bucket.go:94-107 | denied polls, any number of any amounts, leave the bucket's future alone |
| `BucketRuns.RetryAfterIsExact` | internal/limiter/bucket.go:98-107 | after a denial the same amount is granted at a later time if and only if the promised wait is over, the amount fits the capacity and the rate is positive |
| `Fleet.FleetIsTimely` | server/server.go:240-258 | what several dispatchers ask of a shared bucket is one run of that bucket |
| `Fleet.FleetIsGranted` | server/server.go:240-258 | the tokens granted in that run are those of the dispatchers' grants |
| `Fleet.ClaimsWithinRate` | server/server.go:240-276 | claims by all dispatchers sharing a bucket, times the token amount, stay within capacity plus rate times the time since the first acquire |
| `TimerHeap.RootIsLeast` | internal/timer/timer.go:20-26 | the first event of a heap precedes every other by time and sequence |
| `TimerHeap.EventHeap.Swap` | internal/timer/timer.go:27 | swaps two events and keeps every index equal to its position |
| `TimerHeap.EventHeap.Push` | internal/timer/timer.go:28 | adds an event, keeps heap order and indexes |
| `TimerHeap.EventHeap.Pop` | internal/timer/timer.go:29-36 | takes out the event that precedes all others, sets its index to -1, keeps heap order and indexes |
| `TimeWheel.Wheel.Schedule` | internal/timer/timer.go:62-68 | queues a new event under the next sequence number and signals |
| `TimeWheel.Wheel.Cancel` | internal/timer/timer.go:69-76 | marks the event if it is queued, leaves it alone if it is out, and signals |
| `TimeWheel.Wheel.Scan` | internal/timer/timer.go:105-119 | drops cancelled heads and finds the first event by time and sequence |
| `TimeWheel.Wheel.Fire` | internal/timer/timer.go:131-143 | takes the first event out and runs it unless it was cancelled |
| `WheelRuns.AlwaysInv` | internal/timer/timer.go:62-147 | every interleaving of users, runner and dispatcher keeps the timer's invariant |
| `WheelRuns.FiresOnlyDue` | internal/timer/timer.go:131-143 | whenever the runner fires there is an event, and it is due, however the heap changed while the timer slept |
| `WheelRuns.NoLostWakeup` | internal/timer/timer.go:83-131 | while the runner sleeps past an event it should serve first, a wake token is there or about to be sent |
| `WheelRuns.FiresAtMostOnce` | internal/timer/timer.go:131-143 | each event fires at most once, and not at all after it was cancelled in the queue |
| `WheelRuns.WaitsAreServed` | server/server.go:286-305 | a waiting dispatcher is woken only by the event it scheduled itself, and that event is queued, firing or already in the channel |
| `Lifecycle.StepKeeps` | server/server.go:206-314 | every step of dispatcher, workers, Stop and Shutdown keeps the server's invariant |
| `LifecycleTheorems.EveryClaimIsSettledOnce` | server/server.go:259-276 | every claimed task is sent once to one worker or passed once to Requeue, never both; only the one being offered is open |
| `LifecycleTheorems.HandlersWithinConcurrency` | server/server.go:307-314 | never more handlers than the configured concurrency, each on a task of its own |
| `LifecycleTheorems.StopIsOrderly` | server/server.go:502-522 | after stop at most one more task is claimed; both channels are closed at most once; nothing is sent after closing; handlers are cancelled if and only if the stop channel is closed, and the lifecycle context only then, so a waiting dispatcher can leave |
| `LifecycleTheorems.CancelledIff` | server/server.go:518-576 | the lifecycle context is cancelled if and only if some Stop or Shutdown has come to its end |
| `LifecycleTheorems.CallsAreAnswered` | server/server.go:518-576 | every Stop that stops the server and every Shutdown of a started one ends in one cancellation or is still on its way |
| `LifecycleTheorems.GracefulShutdown` | server/server.go:544-576 | without Stop and without a timeout the lifecycle context is cancelled only after dispatcher and workers have ended with every claim settled |
| `LifecycleTheorems.StoppedServerRunsDown` | server/server.go:544-576 | a stopped server's goroutines have at most 14 + 2 * concurrency steps left |
| `LifecycleTheorems.StoppedServerIsNeverStuck` | server/server.go:286-305 | until dispatcher and workers have ended one of them can take a step |

## Left out

- go-redis calls, JSON encoding, key formatting and error wrapping: a stored message is a value, a script result is a value.
- Redis crashes, eviction, cluster failover and lost replies: outside the scripts.
- Hash fields that no script reads (priority, active_since, completed_at, retry_at, last_error): written and never looked at.
- `moveOneScript` (internal/redisstore/rdb.go:118-128): never called.
- Records without rank or rank_member, from other writers: every record the scripts create has both, and the fallbacks are proved unreachable for those.
- Lua numbers are doubles, so sequence numbers above 2^53 would be formatted inexactly; the model formats them exactly.
- Message validation, the empty run time check of Schedule, default lease durations: easy members.
- ListDeadLetters and the counters of retrying and archived tasks: easy members.
- A recovery that retries a task whose lease was extended in between: the code allows it, and so does the protocol model.
- Tracking of active tasks for the heartbeat: the protocol model lets a heartbeat carry any claims at any time.
- Recovery.RecoverTick: a tick with nobody else calling in between; the interleavings are in the protocol model, where reading and ending a task are separate steps.
- Ranks.RankNeverInverts: stops at priority 295147, from where the product is rounded too and the answer depends on the rounding; OrderHoldsIff has the bound for float64.
- Float64 conversion: exponents are unbounded, since no product of a 64-bit priority overflows float64.
- Floating-point rounding of tokens and jitter, and the truncation of the token count in the script's reply.
- A timer with an injected clock that stalls: the runner does not read the clock again after its timer fired.
- Events with a nil callback and the Wake call of the timer: an event without effect, and a spurious signal.
- Liveness of the scheduler, of Redis and of handlers; the maintenance goroutines and their wait at the end of Shutdown.
- The client, handler multiplexer, metrics and command-line programs.
