# Verified models of the drainer, the scheduler and three supporting components

This project models the two distributed pipelines of a payments switch and three smaller components,
and proves what they keep over every run.

- **Drainer.** Per-shard Redis streams of SQL operations, drained by any number of processes. A shard
  is a step system (`DrainerShard`): appends, flag expiry, crashes, sessions preempted at every await,
  and remote commands that fail with or without having taken effect. `DrainerNoLoss` holds with no
  assumption on the flag; `DrainerExclusion` and `DrainerSettlements` say what is gained when the flag
  outlives its holder, `DrainerFifo` when sessions do not overlap and complete their trims. `DrainerFleet` puts all
  shards over one keyspace and projects every run of the fleet onto each shard. `DrainerCode` is the
  session's own imperative code, proved to take only steps of that system.
- **Scheduler.** Producers under a lock, a task table, a stream with a consumer group, consumers and
  workflows (`Scheduler`). `SchedulerAtMostOnce` counts tokens and `SchedulerHistory` states the bound over
  the steps of a run; `SchedulerStatus` ties a task's status
  to the place it is in; `ProducerFlush` follows every fetched task through every pattern of failures
  when nobody interferes (`ProducerAlone` ties it to the step system), and `SchedulerLedger`, which is
  the general result, does so for one producer inside interleaved runs;
  `SchedulerCode` is the producer's and the consumer's own code; `RetryTable` is the delay table.
- **Read-through cache.** Memory over Redis over the database, with redaction on write.
- **Nonces and the AES-GCM envelope** (sections 3.1 and 5.2 of RFC 5116).
- **Masking serializer.** A second serializer over the serde data model, beside plain JSON, and a reader
  for both.

## How to read it

A *run* is a sequence of steps, `Runs.After` the state it leads to, and `Runs.Obeys` restricts runs to
those whose steps satisfy a condition where they are taken. Safety theorems quantify over all runs from
an initial state. Every remote command gets one of three replies: performed and reported so, rejected
and not performed, or performed and reported as failed (`Reply`). Operations, SQL behaviour, the AEAD
cipher and database contents are left abstract.

In the imperative modules a class holds the shared state; each await is one step of the system; the
methods named `Others...` stand for everybody else's steps, and `FindProcessesByTimeStatus` for the
database's choice of rows. Callers use only their contracts, which leave what those others do open.
`Own` lists the steps of the run that the code itself took, and `Passed` says that a state is one the
run went through during the call; with them the contracts say what each operation sends and what it
answers, without saying when the others moved.

Where the code differs from what it is meant to do, the model follows the code:

- After a failed append the producer sets the tasks to Processing once more; it does not restore them.
  They stay Processing with no stream entry (fate `Stranded`).
- The drainer's shutdown waits for counted handlers only; one spawned and not yet counted survives the
  close (`CloseCanMissASpawnedHandler`); `CloseIsFinalIff` says exactly when nobody does.
- The drainer's flag is set without a TTL argument and still expires, through the default TTL.
- Masking does not reach a secret used as a map key, a secret flattened into an object that is itself
  flattened, or one in the fields of a struct or tuple variant in flattened position, which serde
  buffers with a serializer of its own (`SecretKeyShows`, `NestedFlattenedSecretShows`,
  `FlattenedStructVariantShows`, `FlattenedTupleVariantShows`). `Maskable` excludes exactly these, and
  `DependsOnMasksOnlyIffMaskable` shows that it is the exact condition over the modelled values.
- The job counter that decides whether a drainer cycle was successful is 8 bits wide and wraps
  (`WrappedCycleIsUnsuccessful`).
- A retry table with a positive count after a negative one does not mean what its list says
  (`LookupIffNeverRecovers`).

## Model

| member | source | states |
|---|---|---|
| RedisStream.TrimLeavesSuffix | crates/drainer/src/stream.rs:84-93 | Trimming what is left of an id-ordered log at the id of its entry j leaves exactly the log from j on, or what was left if that is shorter |
| RedisStream.DeleteLeavesSuffix | crates/drainer/src/stream.rs:95-100 | Deleting entry j once all before it are gone leaves exactly the log from j + 1 on, or what was left if that is shorter |
| DrainerNoLoss.StepKeeps | crates/drainer/src/handler.rs:176-275 | Every step of any interleaving keeps the invariant that the stream is a suffix of the log, the settled entries are a log prefix at least as long as what was removed, and each session's read is a slice of the log whose processed part is settled; the settled prefix moves only when a statement succeeds or hits a unique violation |
| DrainerNoLoss.EveryRunKeepsInv | crates/drainer/src/handler.rs:176-275 | That invariant holds after every run |
| DrainerShard.Hazards | crates/redis_interface/src/commands.rs:191-213 | What every run may contain at any moment: appends, expiry, crashes, writes by other shards |
| DrainerShard.RepliesHideEffects | crates/drainer/src/stream.rs:79-113 | A command reported as failed may have taken effect: its effect on Redis is then that of an answered one |
| DrainerNoLoss.NoLoss | crates/drainer/src/handler.rs:183-275 | Whatever overlaps, crashes, expires or goes unanswered, the entries removed are a prefix of append order, the settled ones a prefix at least as long, and the stream is all the rest |
| DrainerNoLoss.NeverOvertaken | crates/drainer/src/handler.rs:220-256 | No entry is settled while an earlier one is not |
| DrainerNoLoss.MalformedEntryBlocks | crates/drainer/src/handler.rs:221-236 | An entry that does not parse stays in the stream with everything behind it, and none of that is ever settled |
| DrainerExclusion.MutualExclusion | crates/drainer/src/stream.rs:29-55 | If no flag expires under a live holder, a shard has at most one live session and that session owns the flag it will delete |
| DrainerExclusion.OnlyEarlyExpiryIsExcluded | crates/redis_interface/src/commands.rs:191-213 | The assumption excludes nothing but an expiry under a live holder |
| DrainerExclusion.ExpiryAdmitsSecondSession | crates/redis_interface/src/commands.rs:191-213 | The assumption is needed: a run with one expiry under a live holder has two live sessions |
| DrainerExclusion.TrimCountExact | crates/drainer/src/stream.rs:87-112 | The count returned by a trim equals the entries processed if and only if the session processed exactly one or nobody trimmed since it read |
| DrainerExclusion.TrimAccounting | crates/drainer/src/handler.rs:258-269 | Under an unexpired flag, with appends at any moment, the reported trim equals the entries processed, and differs from the entries read exactly when the loop was left early |
| DrainerFifo.OrderlyStepRefines | crates/drainer/src/handler.rs:220-261 | Each step of a run whose sessions do not overlap and complete their trims, over a truthful database that nobody else writes, is one step of a FIFO applier, or none |
| DrainerFifo.OrderlyAllows | crates/drainer/src/handler.rs:176-275 | What the assumptions of the refinement admit: any appends, expiries, reads and releases, truthful statements of all three kinds, completed trims, and crashes before anything was settled |
| DrainerFifo.FifoAppliesInOrder | crates/drainer/src/handler.rs:220-256 | The applier refined to keeps its line in order and its database the fold of what it applied |
| DrainerFifo.RefinesFifoApplier | crates/drainer/src/handler.rs:220-261 | If moreover the database answers truthfully (a failed statement changed nothing) and nobody else writes it, the database is the fold of the settled entries in append order, each once, unique violations being no-ops; between sessions these are exactly the removed entries |
| DrainerFifo.CrashBeforeTrimAppliesTwice | crates/drainer/src/handler.rs:242-261 | The trim condition is needed: a crash between executing and trimming makes a later session settle the same entry again |
| DrainerSettlements.StepAccounts | crates/drainer/src/handler.rs:176-275 | Every step under an unexpired flag balances executions of an entry against sessions that stop and leave it in the stream |
| DrainerSettlements.ExecutedOncePerRelapse | crates/drainer/src/handler.rs:220-261 | In every run whose flags outlive their holders, an entry has been executed exactly once for each session that settled it and stopped (by a crash or a failed trim or delete) while it was still in the stream, plus once if it is out of the stream or in the hands of a live session |
| StreamNames.DecimalInjective | crates/drainer/src/stream.rs:25-27 | Two shard indices with the same decimal form are equal |
| StreamNames.DecimalValue | crates/drainer/src/stream.rs:25-27 | Reading the decimal form digit by digit gives the index back, and it has no leading zero |
| StreamNames.KeysDistinct | crates/drainer/src/stream.rs:14-27 | For every configured stream name, all stream names and flag names over all shards are pairwise distinct |
| StreamNames.KeysOfShardFive | crates/drainer/src/stream.rs:14-27 | The stream and flag keys of shard 5 are spelled as documented |
| DrainerFleet.WriteThenView | crates/drainer/src/stream.rs:14-55 | A step on one shard's keys changes nothing another shard sees except the shared database |
| DrainerFleet.Project | crates/drainer/src/handler.rs:64-88 | Every run over all shards contains, for each shard, a run of that shard alone, with the same flag discipline |
| DrainerFleet.NoLossOnAnyShard | crates/drainer/src/handler.rs:183-275 | No shard of the fleet loses or reorders entries, whatever happens on any shard |
| DrainerFleet.MutualExclusionOnEveryShard | crates/drainer/src/handler.rs:68-78 | If no flag expires under a live holder, every shard has at most one live session, and the shard's flag key holds that session |
| DrainerCode.Store.IsStreamAvailable | crates/drainer/src/stream.rs:29-44 | True exactly when the flag was free and this call set it and was told so; then a new session holds it; a taken flag is left alone |
| DrainerCode.Store.ReadFromStream | crates/drainer/src/stream.rs:57-78 | What is read is a prefix of the stream as it stood at one moment of the call: all of it, or the configured count if the stream is longer; nothing is read only if the call failed or the stream was empty, and then it is an error |
| DrainerCode.Store.TrimFromStream | crates/drainer/src/stream.rs:79-113 | The session sends XTRIM and, if answered, XDEL, whatever others do in between; Ok exactly when both were answered, with the count that goes into the report |
| DrainerCode.Store.EntryLoop | crates/drainer/src/handler.rs:218-256 | The loop settles exactly the longest prefix of entries that parse and do not fail, sends exactly those statements and the failing one, and ends with the id of the last one settled |
| DrainerCode.ProgressIsLongestPrefix | crates/drainer/src/handler.rs:220-256 | How far the loop gets: every entry it passes parses and does not fail, and the one it stops at, if any, does not |
| DrainerCode.Store.Drainer | crates/drainer/src/handler.rs:176-275 | A session reads that prefix, so never nothing from a readable backlog, executes the longest part of it that goes through and trims exactly when that is not empty; the complete list of its own steps; under an unexpired flag the count reported is the number processed |
| DrainerCode.Store.DrainerHandler | crates/drainer/src/handler.rs:142-174 | The same read and the same steps followed by deleting the flag, whatever the session did; Ok exactly when that was answered |
| ShardWalk.Handler.IncrementStreamIndex | crates/drainer/src/utils.rs:63-77 | The next index is one more modulo the number of shards, and the cycle counters together grow by one exactly when a cycle is complete |
| ShardWalk.Handler.Spawn | crates/drainer/src/handler.rs:65-85 | After any number of iterations the index is their number mod n, both cycle counters add up to their number div n, and the successful ones are exactly the completed cycles whose reads are not a multiple of 256 |
| ShardWalk.JobCounterWraps | crates/drainer/src/handler.rs:183-187 | The 8-bit job counter is the number of reads since its reset, modulo 256 |
| ShardWalk.SuccessesCounted | crates/drainer/src/utils.rs:67-73 | The successful-cycle counter is the number of completed cycles whose reads are not a multiple of 256 |
| ShardWalk.WrappedCycleIsUnsuccessful | crates/drainer/src/utils.rs:68-71 | For any number of shards, a cycle with 256 reads is counted as unsuccessful |
| ShardWalk.WalkClosedForm | crates/drainer/src/utils.rs:67-76 | After k iterations over n shards the index is k mod n and k div n cycles are complete |
| ShardWalk.FairWindow | crates/drainer/src/handler.rs:68-85 | Any n consecutive iterations visit every shard exactly once |
| DrainerShutdown.CounterAndClose | crates/drainer/src/handler.rs:60-111 | In every interleaving the counter equals the handler bodies under way and never underflows, and at most one session starts after the close |
| DrainerShutdown.AtMostOneLateStart | crates/drainer/src/handler.rs:60-88 | Of the steps of any run at most one starts a session after the close |
| DrainerShutdown.ClosesOnlyAfterZero | crates/drainer/src/handler.rs:97-105 | The listener closes only after a state in which it read the counter as zero |
| DrainerShutdown.CloseIsFinalIff | crates/drainer/src/handler.rs:97-105 | For every run that reaches the close: no handler is alive then or in any continuation if and only if the counter is still zero, no spawned handler is uncounted and the spawn loop is not inside an iteration |
| DrainerShutdown.CloseCanMissASpawnedHandler | crates/drainer/src/handler.rs:97-105 | An instance of the other case: the drainer is closed while a spawned session is not yet counted |
| Batching.ChunksPartition | crates/scheduler/src/utils.rs:149-173 | The batches concatenate back to the tasks in order, none is empty, and all but the last are full |
| Batching.OccursInChunks | crates/scheduler/src/utils.rs:149-173 | A task occurs in all batches together as often as in the input |
| Batching.DivideIntoBatches | crates/scheduler/src/utils.rs:149-173 | The chunking loop computes exactly those batches |
| SchedulerSelection.SnapshotRows | crates/scheduler/src/producer.rs:138-164 | A query's answer becomes one task per row, in order, with the row's id and business status |
| SchedulerSelection.ValidOnlyKeepsPending | crates/scheduler/src/consumer.rs:175-185 | The filter keeps exactly the tasks whose business status is "Pending": increasing positions, none missing |
| SchedulerSelection.ValidOnlyCounts | crates/scheduler/src/consumer.rs:175-185 | Each task is kept as often as it occurs if it is pending, and not at all otherwise |
| SchedulerAtMostOnce.StepCovers | crates/scheduler/src/utils.rs:46-138 | Every step keeps, for every task, workflows started plus tokens held (eligible, fetched, in the stream, with a consumer) within one plus the times it was put back |
| SchedulerAtMostOnce.OneProducerStep | crates/scheduler/src/db/queue.rs:77-119 | While the lock outlives its holder, every live producer is the one holding it |
| SchedulerAtMostOnce.AtMostOnce | crates/scheduler/src/consumer.rs:161-204 | With any number of producers and consumers, any failure at any await and rows rewritten by anybody, a task is started at most once plus once for each time it was made eligible again |
| SchedulerHistory.HistoryIsTheRuns | crates/scheduler/src/consumer.rs:132-157 | The counts of starts and put-backs that states carry are those of the run's steps |
| SchedulerHistory.StartedAtMostOncePerPutBack | crates/scheduler/src/consumer.rs:161-204 | The same bound about the steps of a run: those that start a task are at most one more than those that rewrite its row to New or Pending |
| Scheduler.OnlyEarlyExpiryIsExcluded | crates/scheduler/src/utils.rs:386-417 | Its assumption excludes nothing but an expiry under a live holder |
| Scheduler.Hazards | crates/scheduler/src/db/process_tracker.rs:135-187 | What every run may contain at any moment: insertions, rows rewritten by anybody, expiry, crashes, workflows ending with or without rewriting their row |
| Scheduler.ProducerRepliesHideEffects | crates/scheduler/src/utils.rs:61-137 | A producer's call reported as failed may have taken effect: on lock, table and stream its effect is then that of an answered one |
| Scheduler.ConsumerRepliesHideEffects | crates/scheduler/src/consumer.rs:191-199 | So may a consumer's read and its status update |
| SchedulerStatus.StepPlaces | crates/scheduler/src/producer.rs:92-170 | If the lock outlives its holder, an append reported as failed left no entry, and the row of a task on its way is rewritten only by its own workflow, every step keeps each task in one place, with the status of that place |
| SchedulerStatus.EveryRunKeepsInv | crates/diesel_models/src/query.rs:40-85 | That invariant holds after every run under the same three assumptions; rows of tasks at rest may be rewritten by anybody at any time |
| SchedulerStatus.PlaceDecidesStatus | crates/scheduler/src/utils.rs:59-108 | Under these assumptions a task in an undelivered entry is Processing, one handed or being handed to a workflow is ProcessStarted, and a New or Pending one is neither in the stream nor with a consumer nor running; no task is in two of these places |
| SchedulerStatus.FetchesAreDisjoint | crates/scheduler/src/producer.rs:138-164 | Under these assumptions the two queries of one producer run never yield the same task twice, although the table changes between them |
| SchedulerStatus.DisciplineExcludesOnly | crates/scheduler/src/utils.rs:101-137 | The three assumptions exclude nothing else |
| SchedulerWitness.LockExpiryStartsTwice | crates/scheduler/src/utils.rs:386-417 | The lock assumption is needed: a run with one expiry under a live holder starts a task twice without it being put back |
| SchedulerWitness.UnheardAppendUnsettlesStatus | crates/scheduler/src/utils.rs:101-137 | The append assumption is needed: an append that took effect and was reported as failed leads to a run in which a task's workflow is started and its row is back at Processing |
| SchedulerWitness.EarlyRewriteUnsettlesStatus | crates/diesel_models/src/query.rs:40-51 | The row assumption is needed: a run in which the row of a task in the stream is rewritten leaves it Pending and in the stream at once |
| ProducerFlush.Board.UpdateStatusAndAppend | crates/scheduler/src/utils.rs:46-138 | For every combination of outcomes, the table and the stream are those of the batch's fate; Ok exactly when update, serialization and append all succeeded |
| ProducerFlush.Board.DivideAndAppendTasks | crates/scheduler/src/utils.rs:23-44 | Every batch is tried whatever happened before, and the final table and stream are those of all fates in order |
| ProducerFlush.OthersKeepRows | crates/scheduler/src/utils.rs:54-76 | A task in no batch keeps its row and is in no entry |
| ProducerFlush.BatchDecides | crates/scheduler/src/utils.rs:36-42 | A task in one batch ends as that batch's fate says, whatever became of the other batches |
| ProducerFlush.Conservation | crates/scheduler/src/utils.rs:23-173 | Under every failure pattern a fetched task ends in exactly one class: appended once and Processing, not appended with its row unchanged, or Processing and not appended |
| ProducerAlone.FlushAlone | crates/scheduler/src/utils.rs:23-138 | The sequential account is the step system's: a producer that flushes undisturbed ends with exactly its table and stream |
| SchedulerLedger.EntriesAreReal | crates/scheduler/src/utils.rs:61-137 | What a producer step enters in the ledger is what it does to the table and the stream, in any state |
| SchedulerLedger.EveryRunBalances | crates/scheduler/src/utils.rs:36-138 | In every run, of the copies a producer fetched each is refused, flipped or still to come, and only flipped ones are appended |
| SchedulerLedger.ConservationInEveryRun | crates/scheduler/src/utils.rs:23-138 | Inside any interleaved run, whatever anybody else does, no fetched copy is flipped or appended twice or appended unflipped, and when the producer is through, a task fetched once ended in exactly one of three ways: update refused and not appended, flipped and appended, or flipped and not appended |
| SchedulerCode.Tracker.AcquirePtLock | crates/scheduler/src/db/queue.rs:77-108 | Acquired exactly when the key was free, set, answered and given its expiry; if the expiry failed the lock is free again unless the deletion was rejected; a taken lock is left alone |
| SchedulerCode.Tracker.FetchProducerTasks | crates/scheduler/src/producer.rs:121-170 | The batches together hold one task per row of the New answer and then one per row of the Pending answer, each with its row's id and business status as the table stood at that query's moment; a failure of either leaves nothing to flush |
| SchedulerCode.Tracker.UpdateStatusAndAppend | crates/scheduler/src/utils.rs:46-138 | The exact steps of one batch for every combination of outcomes, the repeated update after a failed append included; Ok exactly when update, serialization and append all succeeded |
| SchedulerCode.Tracker.FlushAll | crates/scheduler/src/utils.rs:36-42 | The steps of all batches in order, none skipped after a failure |
| SchedulerCode.Tracker.RunProducerFlow | crates/scheduler/src/producer.rs:92-118 | The complete list of a producer's own steps, from the lock over both queries and every batch of all their rows to the release, which comes last whatever failed |
| SchedulerCode.Tracker.GetBatches | crates/scheduler/src/utils.rs:175-241 | The entry at the head when read, parse, acknowledge and delete all succeeded, no batch and no error for an empty stream, an error otherwise; the consumer sent exactly those calls up to the first failure |
| SchedulerCode.Tracker.FetchConsumerTasks | crates/scheduler/src/consumer.rs:161-204 | Exactly the tasks of the head entry whose business status is "Pending", every one of them and in order, and at that moment the row of each is ProcessStarted; no tasks and no error for an empty stream, an error if any call failed; no calls besides the listed ones |
| SchedulerCode.Tracker.SpawnAll | crates/scheduler/src/consumer.rs:132-157 | The consumer's own steps are exactly one start per task, in order, whatever others do meanwhile, and each task has been started once more than before |
| SchedulerCode.Tracker.ConsumerOperations | crates/scheduler/src/consumer.rs:115-158 | Exactly the pending tasks of the head entry are spawned, all of them, in order and only if every call succeeded; an empty stream is Ok with nothing spawned; the complete list of the consumer's own steps holds one start for each task and no other |
| ConsumerShutdown.NothingRunsAtTheHead | crates/scheduler/src/consumer.rs:67-158 | In every run, at every head of the loop the counter is zero and no workflow is running; after a signal the first poll returns, leaving none; the decrement never underflows |
| ConsumerShutdown.FetchSpawnsAll | crates/scheduler/src/consumer.rs:132-155 | A fetched batch of n tasks leads to exactly n spawned workflows before they are joined |
| RetryTable.GetDelay | crates/scheduler/src/utils.rs:369-384 | The loop returns the frequency at which the running sum first reaches the retry count, and none for counts that are not positive |
| RetryTable.ZipPairs | crates/scheduler/src/utils.rs:317-320 | Counts stand with counts and frequencies with frequencies, as far as the shorter list reaches |
| RetryTable.FirstReachingAnswers | crates/scheduler/src/utils.rs:369-384 | The loop's answer in terms of the configured lists: the frequency of the first row whose counts add up to the retry count, or none |
| RetryTable.FirstReachingIsLookup | crates/scheduler/src/utils.rs:375-383 | If no positive count follows a negative one, that is the entry of the list repeating each frequency as often as its count |
| RetryTable.LookupIffNeverRecovers | crates/scheduler/src/utils.rs:370-383 | For lists of at most 2^31 - 1 entries (any bound on the retry count that covers the list), the loop agrees with the list for every retry count if and only if no positive count follows a negative one |
| RetryTable.LongListHidesTheDifference | crates/scheduler/src/utils.rs:376-378 | The bound on the list is needed: a table with a longer list where loop and list agree for every retry count although a positive count follows a negative one |
| RetryTable.SmallTotalNeverOverflows | crates/scheduler/src/utils.rs:376-378 | Non-negative counts with a sum in 32 bits never overflow the running sum |
| RetryTable.NoOverflowIffSumsFit | crates/scheduler/src/utils.rs:375-378 | No overflow means exactly that every sum of counts formed before the answer lies within 32 bits |
| RetryTable.ExpandLength | crates/scheduler/src/utils.rs:376-381 | That list is as long as the sum of the counts |
| RetryTable.NegativeCountBreaksLookup | crates/scheduler/src/utils.rs:370-383 | An instance of the other case: a table where the loop and the list disagree |
| RetryTable.GetScheduleTime | crates/scheduler/src/utils.rs:303-322 | The merchant's own mapping answers, else the default one: retry 0 with its start, a negative one never, any other with the frequency of the first row at which the counts add up to it, and none if they never do; if no positive count follows a negative one that is the entry of the schedule |
| RetryTable.RetryUntilExhausted | crates/scheduler/src/utils.rs:303-322 | For non-negative counts, retrying until there is no answer terminates after one plus the sum of the configured counts attempts, the first after the start delay and each later one after the frequency of the row it falls into |
| CacheTheorems.NoThinAir | crates/router/src/cache.rs:30-99 | In every interleaving each value in either layer, or in the hands of a read, was the database's value for that key in some state the run passed through |
| CacheTheorems.SeenWasHeld | crates/router/src/cache.rs:85-85 | Every value recorded as written was in the database at some instant of the run |
| CacheTheorems.DirtyIffUnredacted | crates/router/src/cache.rs:85-99 | A key is dirty exactly when it was written and since its last write no redact of it returned Ok |
| CacheTheorems.Coherence | crates/router/src/cache.rs:12-100 | If reads and redacts of one key do not overlap, an Ok read of a key that is not dirty returns the database's current value |
| CacheTheorems.SeparateExcludesOnly | crates/router/src/cache.rs:12-100 | Its assumption excludes nothing but overlaps of reads and redacts of one key, and redacts without the memory cache |
| ReadThroughCache.Hazards | crates/router/src/cache.rs:12-100 | What every run may contain at any moment: evictions from either layer, new reads and redacts, failing calls |
| ReadThroughCache.RepliesHideEffects | crates/router/src/cache.rs:33-36 | A call reported as failed may have taken effect: on Redis and the database its effect is then that of an answered one |
| CacheWitness.OverlapLeavesStaleValue | crates/router/src/cache.rs:31-38 | The condition is needed: an overlapping read leaves an outdated value in Redis after the redact returned Ok |
| CacheCode.Layers.GetDataSetRedis | crates/router/src/cache.rs:31-38 | Ok exactly when the fetch found the key and the SET was answered, with the value the database held at one moment of the call, which Redis then holds |
| CacheCode.Layers.GetOrPopulateRedis | crates/router/src/cache.rs:12-50 | Redis at one moment of the call answers a hit; a miss or an undecodable entry is answered by the database at another; any other error is returned |
| CacheCode.Layers.GetOrPopulateInMemory | crates/router/src/cache.rs:53-72 | The answer is that of the first layer that has one, each as it stood at a moment of the call, and never an error if the database has the key and every call succeeds; memory then holds it; the value was the database's in some state of the run, and is the current one if no redact of the key overlapped and the key is clean |
| CacheCode.Layers.DropFromBoth | crates/router/src/cache.rs:86-98 | Memory is invalidated before the connection to Redis is asked for; after Ok the key is in Redis no longer and is clean |
| CacheCode.Layers.RedactCache | crates/router/src/cache.rs:75-100 | The complete list of a redact's own steps; the row was in the database at a moment of the call; Ok exactly when all calls succeeded, and then the key is gone from Redis and clean |
| CacheCode.RedactOrder | crates/router/src/cache.rs:85-98 | Once the row is written, memory is dropped next, and then Redis if it can be reached |
| NonceBytes.FromToBytes | crates/common_utils/src/crypto.rs:48-53 | Reading back the big-endian bytes of a number that fits returns it |
| NonceBytes.ToFromBytes | crates/common_utils/src/crypto.rs:41-45 | Writing back what was read gives the same bytes |
| NonceBytes.NonceAfter | crates/common_utils/src/crypto.rs:56-67 | After k advances from s the nonce is the 12-byte big-endian form of (s + k) mod 2^96, also across the 128-bit wrap |
| NonceBytes.NoncesRepeatExactlyAtPeriod | crates/common_utils/src/crypto.rs:56-67 | Two nonces of a sequence are equal if and only if they are a multiple of 2^96 steps apart (section 3.1 of RFC 5116) |
| NonceBytes.NonceSequence.FromNonce | crates/common_utils/src/crypto.rs:27-53 | The sequence built from twelve bytes has those bytes as its current nonce |
| NonceBytes.NonceSequence.Current | crates/common_utils/src/crypto.rs:41-45 | The 12-byte big-endian form of the counter modulo 2^96, although it is cut from the 16-byte form |
| NonceBytes.NonceSequence.Advance | crates/common_utils/src/crypto.rs:57-66 | Returns the 12-byte form of the counter modulo 2^96 and moves the counter one on modulo 2^128 |
| NonceBytes.NonceSequence.AdvanceMany | crates/common_utils/src/crypto.rs:57-66 | The k-th of any number of nonces in a row is the 12-byte form of (start + k) mod 2^96 |
| GcmEnvelope.EncodeMessage | crates/common_utils/src/crypto.rs:245-265 | Ok exactly for a 32-byte key, a delivered nonce and a message the cipher accepts; the prefix is the very nonce sealed with and the output is 28 bytes longer |
| GcmEnvelope.DecodeMessage | crates/common_utils/src/crypto.rs:267-296 | Opens under the stored nonce; a key that has not 32 bytes, fewer than 12 bytes, or fewer than 28 under a lawful cipher is rejected |
| GcmEnvelope.RoundTrip | crates/common_utils/src/crypto.rs:245-296 | Decoding an encoded message under the same key returns it, for every message and every nonce |
| GcmEnvelope.LawfulCiphersExist | crates/common_utils/src/crypto.rs:245-296 | The two laws asked of the cipher can be met, by one that seals everything |
| MaskedSerializer.MaskedIsPlainOfRedacted | crates/masking/src/serde.rs:139-562 | For every value, masked JSON is the plain JSON of the value with its recognised secrets redacted, errors included |
| MaskedSerializer.RedactedIsSecretFreeIffMaskable | crates/masking/src/serde.rs:139-160 | Redaction leaves no secret if and only if no map key is secret, no secret is flattened into an object that is itself flattened, and none is in the fields of a flattened struct or tuple variant |
| MaskedSerializer.SecretFreeIsPlain | crates/masking/src/serde.rs:179-562 | On values without secrets masked JSON equals plain JSON |
| SerdeReader.PlainIsExposed | crates/masking/src/serde.rs:179-562 | Plain JSON of any value is that of the value with secrets opened and flattened values spliced into the object around them |
| SerdeReader.PlainReadsBack | crates/masking/src/serde.rs:179-562 | A reader that knows only the shape recovers the exposed value from its plain JSON: every scalar, sequence, variant name and field name |
| SerdeReader.FieldsBareIff | crates/masking/src/serde.rs:524-562 | The reader covers exactly the objects whose fields have distinct plain names and covered values |
| MaskedReader.MaskedReadsBack | crates/masking/src/serde.rs:91-95 | The same reader recovers the redacted value from masked JSON |
| MaskedReader.SecretFreeReadsBack | crates/masking/src/serde.rs:91-95 | Without secrets it recovers the value itself |
| MaskedReader.MembersByName | crates/masking/src/serde.rs:524-562 | A masked object of named fields has exactly their names, each with the masked JSON of the last field of that name |
| MaskedReader.SecretShowsMask | crates/masking/src/serde.rs:149-150 | A recognised secret becomes the text of its mask |
| MaskedSerializer.MaskedDependsOnMasksOnly | crates/masking/src/serde.rs:91-160 | Two maskable values that differ only in what their secrets hold, with equal masks, have the same masked JSON |
| MaskedExact.DependsOnMasksOnlyIffMaskable | crates/masking/src/serde.rs:139-160 | For every value that serializes, its masked JSON is the same for all values that differ only in what secrets hold if and only if it is maskable; the differing twin may hold a secret of another type, one that does not serialize (an exposed member that a later one overwrites is not told apart by contents of one type) |
| MaskedSerializer.FlattenedSecretAddsNothing | crates/masking/src/serde.rs:152-157 | A secret flattened directly into a masked object contributes no fields, wherever it stands and whatever it holds |
| MaskedSerializer.SecretKeyShows | crates/masking/src/serde.rs:524-530 | A secret map key appears unmasked |
| MaskedSerializer.NestedFlattenedSecretShows | crates/masking/src/serde.rs:152-159 | A secret flattened into a flattened object appears unmasked |
| MaskedSerializer.FlattenedStructVariantShows | crates/masking/src/serde.rs:149-159 | A struct variant without flattened fields, in flattened position, appears as in plain JSON, its secrets included |
| MaskedSerializer.FlattenedTupleVariantShows | crates/masking/src/serde.rs:149-159 | So does a tuple variant |
| MaskedSerializerCode.SerializeVec.SerializeElement | crates/masking/src/serde.rs:409-415 | Pushes the element's masked JSON, or reports its error and pushes nothing |
| MaskedSerializerCode.SerializeVec.SerializeElements | crates/masking/src/serde.rs:400-420 | Pushes all elements in order, stopping at the first error |
| MaskedSerializerCode.SerializeMap.SerializeValue | crates/masking/src/serde.rs:532-539 | Inserts the value's masked JSON under the kept key, or reports its error and inserts nothing |
| MaskedSerializerCode.SerializeMap.SerializeFields | crates/masking/src/serde.rs:513-562 | Inserts all fields in order, later ones winning, stopping at the first error |
| MaskedSerializerCode.SerializeMap.SerializeFlat | crates/masking/src/serde.rs:148-159 | A flattened value writes into the enclosing map; a directly flattened secret writes nothing, and the buffered fields of a struct or tuple variant arrive unmasked |
| MaskedSerializerCode.MaskedSerialize | crates/masking/src/serde.rs:91-95 | The traversal computes the plain JSON of the redacted value, for every value, and a reader recovers that value from it |

## Left out

- Redis, Postgres and tokio themselves: only the commands used, as small contracts; stream entry ids are naturals.
- Liveness: failure paths can leave a task Processing without a stream entry, so only safety and conservation are stated.
- Schedule-time windows, limits and ordering of the task queries: a query returns any distinct rows of the asked status.
- The cleaner flow and the unexpected-flow branch of the status update: the cleaner is not reachable from the top level.
- Changeset conversion, process ids, workflow selection and the other two schedule-time look-ups: one-branch facts, or the same code over another key.
- Publish/subscribe invalidation, and memory caches of several processes: the cache model has one memory layer.
- AES, HMAC and hashing internals, and the pass-through algorithm: the cipher is a parameter with two laws.
- Serde's handling of internally tagged enums, of scalars, sequences and unit variants in flattened position, and of 128-bit integers: library behaviour, so nothing is claimed about secrets there. Buffering of flattened struct and tuple variants is taken over from the library as one function.
- Types inside secrets: values alike up to their secrets may hold secrets of different types, so exactness of `Maskable` is not claimed for contents of one type.
- Reads reported between the loop's look at the job counter and its reset: they count for neither cycle.
- The separate accumulator types of tuple and struct variants: they do what the vector and map accumulators do, with the variant's name around the result.
- The contents of errors, metrics other than the cycle counters, logging, tracing, configuration and HTTP.
- RetryTable.GetScheduleTime: requires that the 32-bit running sum does not overflow before the answer, where the source panics or wraps depending on the build; `NoOverflowIffSumsFit` says exactly when, `SmallTotalNeverOverflows` when for sure.
- RetryTable.RetryUntilExhausted: the sum must be below the largest 32-bit value, since the last question asked is about the sum plus one.
