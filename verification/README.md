# A verified model of dotdns

dotdns is a caching, blocklist-aware DNS forwarder. This project models its stateful
kernels in Dafny and proves what they guarantee:

- **Single-flight coalescing** of identical upstream queries, as a state machine whose steps
  are the atomic sections of callers and detached tasks: lock, gauge update, spawn, poll,
  wake, timeout, drop, reply, remove, send, close. A run is any interleaving.
- **The resolution pipeline** over the shared cache, the blocklist and the coalescer: any
  number of clients, upstream runs, dropped connections and cache flushes, interleaved.
- **The upstream pool**: passive health (as a trace property and under interleaved atomics),
  attempt order, round robin, the failover loop, and the accounting across modules.
- **DNS-over-TLS connection reuse**: streams as linear resources moving between query futures
  and idle stacks.
- **The TTL cache** against the history of its calls; **the client registry** against an LRU
  list; **the blocklist** from file lines to decisions; **the client-subnet mask** from bit
  operations to "two clients in one subnet share one upstream query".

The files, bottom up:

| file | content |
|---|---|
| Messages.dfy, Metrics.dfy, Arithmetic.dfy | DNS messages, counters, division facts |
| PendingQueries.dfy, PendingInvariant.dfy, PendingTheorems.dfy, PendingDelivery.dfy, PendingObject.dfy | the coalescer: machine, invariant, theorems, what every waiter is owed, running object |
| Cache.dfy, CacheObject.dfy | the cache: functions and histories, running object |
| Blocklist.dfy, BlocklistParser.dfy, BlocklistEngine.dfy | matcher, line parser, loading and reload |
| Ecs.dfy | masks on machine words and the client-subnet option |
| Resolver.dfy, ResolverExact.dfy, ResolverObject.dfy, ListedDomains.dfy | the pipeline: machine and end-to-end theorems, which answer each client must get, running object, and from a list's line to a blocked query |
| UpstreamHealth.dfy, AttemptOrder.dfy, UpstreamPool.dfy, PoolHistory.dfy | the pool: health, order, failover, and its state told by the attempts made |
| DotPool.dfy, DotProgress.dfy | connection reuse: ownership, and what a query must achieve |
| ClientRegistry.dfy | the bounded client registry |

An object the source updates in place is a class; its methods are proved equal to functions on
a value (`Model()`), and the theorems are about those functions and the machines built from
them. `dafny verify dfyconfig.toml` checks everything.

## Where the code differs from what is said about it

- The follower gauge is not always balanced. A follower whose future is dropped while it waits
  is never counted out. `PendingTheorems.GaugeReturnsToZeroIff` says exactly when the gauge
  returns to zero, `LostFollowerExample` gives a run where it does not, and
  `LostFollowersStay` shows the loss is permanent.
- "A success immediately restores it" (src/upstream.rs:645) holds for calls made one after the
  other. When a failure is between its two atomic operations, a success can be overtaken:
  `UpstreamHealth.OvertakenSuccess` is such a schedule and leaves an upstream sidelined with no
  failure counted; `RestoredForGoodIff` says exactly when a success is final.
- A configured minimum TTL lets a record be served above its own TTL less its age.
  `TtlCache.ServedInTimeIff` gives the exact condition, and the pipeline's result for clients
  carries it.
- A domain listed with the root dot (`example.com.`) parses to a rule that never blocks anything:
  the rule keeps the dot and the names looked up have lost theirs.
  `ListedDomains.ListedDomainWorksIff` gives the exact condition and
  `DottedLineBlocksNothing` the failing lists.
- Storing again under a key already in a full cache evicts first, so it can shrink the cache
  (`TtlCache.OverwriteMayShrink`), and a cache for two can lose one of the only two keys ever
  stored (`AtCapacityExample`). `RoomyServes` and `EvictsNothingIff` say how much room is enough.

## Model

| member | source | states |
|---|---|---|
| PendingTheorems.SingleFlight | src/server.rs:79-119 | in every reachable state a key is in the map exactly while one flight for it stands between insertion and removal, and no two upstream runs for one key overlap |
| PendingTheorems.RemovesOwnEntry | src/server.rs:109-112 | a finishing task finds the entry of its own generation in the map, never none and never a successor's |
| PendingTheorems.Delivery | src/server.rs:125-157 | a caller that returns a result returns the one of the run started for its own channel and key; no caller ever returns by the "cancelled" branch |
| PendingDelivery.LookDelivers | src/server.rs:126-129 | a leader or follower that looks at a channel holding its value ends its wait with that value |
| PendingDelivery.ReadsToEnd | src/server.rs:125-157 | from every state, a caller polling or parked on a channel holding its value returns that value by its own steps alone, and a follower is counted out once, as served |
| PendingDelivery.EveryWaiterIsServed | src/server.rs:79-159 | in every reachable state, each caller anywhere between the map and its result can still return its flight's answer, the one recorded or the one to come: its flight's steps and then its own lead there |
| PendingDelivery.TimeoutIsTheTimers | src/server.rs:124-157 | over any run a caller ends as timed out only through its own timer |
| PendingDelivery.ResultIsTheReply | src/server.rs:106-115 | over any run a flight's result is the very answer its upstream query was given |
| PendingTheorems.OneAnswerPerGeneration | src/server.rs:106-116 | over any run a generation is answered at most once, and has a result exactly if it was |
| PendingTheorems.FlightIsStable | src/server.rs:106-116 | no step rewrites the key, the query or a recorded result of a flight |
| PendingTheorems.FlightProgress | src/server.rs:89-118 | whatever callers are dropped or time out, an unfinished flight can always take its next step, and no step of anyone moves it backwards |
| PendingTheorems.EntryClears | src/server.rs:89-118 | from any state the flight's own remaining steps take it to its end: the map then no longer names it and its channel is closed, so no entry can be stranded by cancelled callers |
| PendingTheorems.GaugeConservation | src/server.rs:100-157 | in every reachable state the leader gauge counts the flights between start and completion, the follower gauge counts waiting and dropped followers and equals joins minus settled ones, and neither is negative |
| PendingTheorems.GaugeReturnsToZeroIff | src/server.rs:120-157 | once all work is done the map is empty and no leader is counted, and the follower gauge is zero if and only if no follower was dropped while waiting |
| PendingTheorems.LostFollowersStay | src/server.rs:120-157 | no continuation brings the follower gauge below the number of followers dropped while waiting |
| PendingTheorems.LostFollowerExample | src/server.rs:120-157 | a concrete reachable quiet state whose follower gauge reads one |
| PendingTheorems.GenerationsCoexist | src/server.rs:109-115 | a second run for a key can start while the first still has its answer to send, so the one-entry invariant is not trivial |
| PendingInvariant.StepKeepsInv | src/server.rs:79-159 | each of the sixteen atomic steps keeps the inductive invariant tying map, channels, flights and callers together |
| PendingInvariant.ReachableInv | src/server.rs:79-159 | the invariant holds in every state of every interleaving |
| PendingInvariant.WakeFindsValue | src/server.rs:126-133 | a parked caller that wakes finds a value, never a closed channel without one |
| PendingInvariant.RemoveTakesOwn | src/server.rs:109-112 | under the invariant the removal takes the task's own sender |
| PendingQueries.Register | src/server.rs:82-91 | after the locked section the map names the returned channel, and the caller leads exactly when the key was absent |
| PendingObject.PendingMap.JoinOrLead | src/server.rs:82-91 | the locked section on the running object is the machine's lock step on its value |
| PendingObject.PendingMap.CountIn | src/server.rs:93-122 | a leader raises the leader gauge, a follower the follower gauge, and nothing else moves |
| PendingObject.PendingMap.Complete | src/server.rs:106-118 | the task's tail lowers the gauge, takes the entry, stores the answer if anyone can receive it and closes the channel |
| PendingObject.PendingMap.Finish | src/server.rs:136-157 | a follower is counted out once, as resolved or as timed out, a leader not at all; a value is returned as it is, the timer as the timeout error, a lost sender as the cancellation error |
| PendingObject.CompleteIsFourSteps | src/server.rs:106-118 | the task's tail run alone equals its four machine steps in a row, from every state satisfying the invariant |
| PendingObject.FinishIsTwoSteps | src/server.rs:136-157 | a follower's settling run alone equals its two machine steps |
| ResolverTheorems.EveryAnswerIsExplained | src/server.rs:523-603 | after any run from an empty cache every response carries its client's id and is: a form error without a question; for a blocked name a reply synthesised for the same query; otherwise a server failure or, up to id and TTLs, a successful upstream answer to the same query, with the upstream's own TTLs if it did not come from the cache, and with none above the upstream's less its age in the cache if it did, unless the configured bounds lift the life of that answer; "the same query" is told by the messages' own fields |
| ResolverExact.UncachedAnswersAreExact | src/server.rs:523-603 | after any run, a response that is not from the cache is exactly: the form error, the reply made for the client's own query if blocked, the answer the coalescer handed this client under the client's id, or the server failure, and that one only if the coalescer handed it an error |
| ResolverExact.FreshIsServed | src/server.rs:551-586 | a response in the cache younger than its life is served, for blocked and other names, and nothing is asked |
| ResolverExact.OtherwiseIsSunk | src/server.rs:563-572 | otherwise a blocked query is answered without asking |
| ResolverExact.OtherwiseIsAsked | src/server.rs:583-591 | and any other query is asked upstream, with the option written in, under its own encoding with the id blanked |
| ResolverExact.AnsweredIsStored | src/server.rs:570-597 | what is then answered is stored under the same query when it has records, with its clamped life |
| ResolverTheorems.NoClientSeesLateTtls | src/server.rs:575-586 | so on every run without a configured minimum, whatever a client gets from the cache has no TTL above the upstream's less its age since it was stored (section 3.2.1 of RFC 1035) |
| ResolverTheorems.RunsUseTheCacheAsSpecified | src/server.rs:523-603 | the cache of any interleaved run is that of a history of cache calls, so every cache result holds there: bounded, counted and conserved |
| ResolverTheorems.SharedKeysIff | src/server.rs:605-688 | two clients for whom the option is written, sending one query under any ids, get equal pending keys, and equal cache keys, if and only if they are in one subnet |
| ResolverTheorems.BlockedNamesStayHome | src/server.rs:538-571 | in no run does an upstream run start for a blocked name |
| ResolverTheorems.CacheIsExplained | src/server.rs:551-597 | every cached message is synthesised or an upstream answer for the key it lies under, in every reachable state |
| ResolverTheorems.PendingKeyDeterminesCacheKey | src/server.rs:71-75 | equal pending keys mean equal queries up to id, hence equal cache keys |
| ResolverTheorems.KeyDecides | src/server.rs:535-540 | whether a query is blocked depends only on its cache key, so a hit never crosses the blocklist |
| ResolverTheorems.DeliveredIsFromUpstream | src/server.rs:591-597 | what a caller is handed by the coalescer answers a query with its own cache key |
| ResolverTheorems.StepKeepsInv | src/server.rs:523-603 | every step of every client, flight and flush keeps the end-to-end invariant |
| ResolverTheorems.SynthesisedMeaning | src/server.rs:690-744 | a synthesised reply, whichever of the same queries it was made for, is one record under the name asked for: the null address, or the SOA with every field as configured, in its own section, under the right code |
| ResolverTheorems.BlockedReplyMeaning | src/server.rs:690-744 | the reply made for a blocked query, field by field: its one record, owner name, the configured TTL or the largest there is, the code, and what it copies from the query |
| ResolverTheorems.ErrorReplyMeaning | src/server.rs:746-761 | an error reply copies id, opcode, recursion bit and EDNS of its query, has the code asked for and no record |
| ResolverTheorems.LookupIsEnabled | src/server.rs:547-584 | no client is ever stuck before its lookup |
| ResolverObject.ResolveContext.Resolve | src/server.rs:523-603 | one resolution through the real cache and blocklist objects: its response, whether it asks the coalescer, and the whole new cache |
| ResolverObject.ResolveContext.MakeBlocked | src/server.rs:690-744 | the blocked reply built step by step is the one the theorems are about |
| ResolverObject.ResolveIsRun | src/server.rs:523-584 | a resolution that does not ask the coalescer is a run of the machine with the same response and cache |
| ResolverObject.AskingIsRun | src/server.rs:578-591 | any other resolution enters the coalescer with the upstream query and its key |
| ResolverObject.ReturningIsRun | src/server.rs:591-602 | and leaves it with the method's response and store, whatever the cache has become meanwhile |
| Messages.SkeletonIgnoresIdAndTtl | src/server.rs:558-559 | the comparison used end to end ignores what a cache hit rewrites, the id and the TTLs |
| Messages.SkeletonEqualIff | src/cache.rs:91-100 | and nothing else: two messages compare equal if and only if they differ at most in id and record TTLs |
| TtlCache.SameKeyIff | src/cache.rs:22-41 | two queries have one key if and only if their first questions agree, names up to ASCII case, and so do the recursion bit, the wish for DNSSEC records and the subnet option, or its absence; one without a question has none |
| TtlCache.CurrentIsFound | src/cache.rs:75-104 | over any history a lookup finds the response last stored for the same query, in the messages' own fields, neither flushed nor evicted since, exactly while it is younger than its life, with every TTL set to the whole seconds left |
| TtlCache.FoundIsCurrent | src/cache.rs:75-104 | and it finds nothing else |
| TtlCache.GetRefinesHistory | src/cache.rs:75-104 | the same through the key: a lookup answers from what the history leaves live |
| TtlCache.NothingLiveIff | src/cache.rs:106-168 | nothing is live for a query if and only if every store for it was followed by a flush or its eviction |
| TtlCache.HistoryTracked | src/cache.rs:75-168 | map and history agree on every key after every call |
| TtlCache.CastIsExact | src/cache.rs:88-89 | below 2^32 seconds the cast of the remaining time loses nothing, and TTL plus age stays within the life |
| TtlCache.ServedInTimeIff | src/cache.rs:75-142 | a response is served in every history, at every lookup, with no record above its own TTL minus its age, if and only if the configured bounds do not lift its life above its least TTL (or lift it from zero to one nanosecond) |
| TtlCache.NeverAboveOwnTtl | src/cache.rs:75-142 | so without a minimum, over any history, no record of any section is served above its own TTL minus its age (section 3.2.1 of RFC 1035) |
| TtlCache.ServedPastOwnTtlIff | src/cache.rs:133-142 | a stored response can be served at an age not below the least TTL of its records if and only if a minimum is set above that TTL and no maximum is set at or below it |
| TtlCache.Conservation | src/cache.rs:83-168 | after every call the entries are at most max(1, capacity), the gauge reads the map size, and newly stored keys equal present + evicted + expired + flushed |
| TtlCache.RoomKeepsAll | src/cache.rs:144-161 | a store below capacity, or into an empty cache, evicts nothing and leaves every other entry as it was |
| TtlCache.FullEvictsOne | src/cache.rs:144-161 | a store at capacity evicts exactly one entry and leaves every other as it was |
| TtlCache.UnstorableKeepsAll | src/cache.rs:106-129 | a response without records, or a query without a question, changes nothing |
| TtlCache.RoomyServes | src/cache.rs:75-162 | over any history whose every store came with fewer distinct keys than the capacity stored before it, a response is found until its life is over, unless stored again or flushed |
| TtlCache.FewKeysAreRoomy | src/cache.rs:144-150 | fewer distinct keys than the capacity, over the whole history, are always room enough |
| TtlCache.EvictsNothingIff | src/cache.rs:144-150 | a history of stores evicts nothing if and only if each store found that room |
| TtlCache.AtCapacityExample | src/cache.rs:144-150 | as many keys as the capacity are not enough: a history of three stores of two keys that loses one |
| TtlCache.LifeAtBounds | src/cache.rs:131-142 | the life of a response is its least TTL where the bounds allow it, else the bound, and the maximum has the last word |
| TtlCache.OverwriteMayShrink | src/cache.rs:144-150 | overwriting at capacity loses an entry exactly when the victim is another key |
| TtlCache.LeastTtl | src/cache.rs:112-125 | the result is a lower bound of all record TTLs and is reached |
| TtlCache.InsertContents | src/cache.rs:106-162 | after an insert every entry is the one just stored under its own key or was there before |
| CacheObject.Cache.Get | src/cache.rs:75-104 | the in-place lookup computes the specified response and new store, and touches no other metric |
| CacheObject.Cache.Insert | src/cache.rs:106-162 | the in-place insert, with its accumulating loops, clamping and eviction, computes the specified store |
| CacheObject.Cache.Flush | src/cache.rs:164-168 | nothing is left, and the gauge reads zero |
| CacheObject.Cache.UpdateMetric | src/cache.rs:177-182 | the gauge reads the map size and no other metric moves |
| CacheObject.Cache.constructor | src/cache.rs:64-73 | a new cache is empty and the gauge is reset |
| CacheObject.OverwriteTtls | src/cache.rs:91-100 | the loop sets every record's TTL and nothing else |
| CacheObject.LeastRecordTtl | src/cache.rs:112-129 | the three loops find the least TTL of all sections, or that there is no record |
| PoolSpec.FailoverAnswer | src/upstream.rs:766-815 | the answer is the first success; an error is returned only after every upstream was tried, and is the last one |
| PoolSpec.FailoverHealth | src/upstream.rs:775-795 | exactly the upstreams tried have their health updated, each once, by its own attempt |
| PoolHistory.HealthIsReplay | src/upstream.rs:775-795 | after any run of attempts an upstream's health is the replay of its own: every answer a success, every error, whichever it is, a failure |
| PoolHistory.DegradedAfterLog | src/upstream.rs:672-691 | so from a fresh pool it is sidelined exactly if its last three attempts all failed and the last is less than 30 s old |
| PoolHistory.MetricsCount | src/upstream.rs:777-803 | after any run the metrics have grown by the numbers of answered, failed and timed-out attempts |
| PoolHistory.StatisticsCount | src/observability.rs:35-49 | the statistics of a name have grown by the attempts on upstreams of that name: successes with their latencies, timeouts, and other failures |
| PoolHistory.LastLatencyIsLast | src/observability.rs:35-41 | the last latency is that of the last answered attempt under the name |
| PoolObject.Sidelined | src/upstream.rs:749-815 | the running pool, after queries on a new one, has an upstream sidelined exactly by its last attempts in them |
| PoolSpec.FailoverIsAccounted | src/upstream.rs:766-815 | the whole effect of a query on health, metrics and statistics is that of the attempts it made |
| PoolSpec.CountersAgree | src/upstream.rs:777-811 | over any interleaving of attempts, with all names registered, even repeated ones: failures plus timeouts by name grow as the failure metric, timeouts as the timeout metric, successes as the success metric |
| PoolSpec.FailuresAgreeIff | src/observability.rs:262-278 | in general the failure counts agree if and only if no attempt failed on an unregistered name |
| PoolSpec.Growth | src/upstream.rs:777-811 | for each kind, metric growth equals growth summed over names plus the attempts on unregistered names |
| PoolSpec.Tries | src/upstream.rs:766-813 | the number of upstreams tried: all before it failed, and short of the whole order it ends in a success |
| PoolObject.UpstreamPool.Query | src/upstream.rs:749-815 | a query takes its start from the policy and the counter, tries the upstreams in the one attempt order for that start, and has exactly the failover's answer and effect, which is that of the attempts it made; an empty pool fails at once |
| PoolObject.UpstreamPool.QueryEach | src/upstream.rs:749-815 | queries coming one after the other take the starts of consecutive counter values, evenly spread on a round-robin pool, and leave the pool as all their attempts make it |
| PoolObject.UpstreamPool.TryInOrder | src/upstream.rs:766-815 | the retry loop with its remembered error is the recursive failover |
| PoolObject.UpstreamPool.Record | src/upstream.rs:775-811 | one attempt's effect on health, metrics and statistics |
| PoolObject.UpstreamPool.RecordAnswered | src/upstream.rs:776-785 | a success clears the health of its upstream and counts once in metrics and statistics |
| PoolObject.UpstreamPool.RecordFailed | src/upstream.rs:787-811 | a failure counts once in health and metrics, and as a timeout or a failure in the statistics, never both |
| PoolObject.UpstreamPool.AttemptOrder | src/upstream.rs:733-747 | the two-vector loop yields the specified order |
| PoolObject.UpstreamPool.Start | src/upstream.rs:755-760 | where a query starts, and the counter's step |
| PoolObject.UpstreamPool.constructor | src/upstream.rs:708-727 | every upstream starts healthy with its own health record, the counter at zero |
| PoolObject.UpstreamBoard.RecordSuccess | src/observability.rs:262-266 | counts under a registered name and ignores any other |
| PoolObject.UpstreamBoard.RecordFailure | src/observability.rs:268-272 | counts under a registered name and ignores any other |
| PoolObject.UpstreamBoard.RecordTimeout | src/observability.rs:274-278 | counts under a registered name and ignores any other |
| AttemptOrder.OrderIsAttemptOrder | src/upstream.rs:733-747 | the order lists every upstream, healthy before degraded, each group in cyclic order from the start |
| AttemptOrder.OrderIsDetermined | src/upstream.rs:733-747 | and it is the only order that does |
| AttemptOrder.OrderLength | src/upstream.rs:733-747 | it has exactly one place for each upstream |
| AttemptOrder.FirstAttempt | src/upstream.rs:729-747 | the first upstream tried is the first healthy one going round from the start, and degraded only if all are |
| AttemptOrder.SequentialOrder | src/upstream.rs:755-760 | a sequential pool starts at 0 and leaves the counter alone: healthy upstreams in configured order, then degraded ones in that order |
| AttemptOrder.SequentialAsksFirst | src/upstream.rs:755-760 | with all upstreams healthy it asks upstream 0 first |
| AttemptOrder.RoundRobinIsFair | src/upstream.rs:755-760 | of the starts issued to any n consecutive queries each index is floor(n/len) or ceiling(n/len), wherever the counter stood |
| UpstreamHealth.DegradedIff | src/upstream.rs:672-691 | for calls in sequence: sidelined exactly if at least three failures ended the trace and the last is less than 30 s old |
| UpstreamHealth.TripsIff | src/upstream.rs:683-691 | the transition is reported exactly by the third failure of a run, or a later one 30 s or more after its predecessor |
| UpstreamHealth.SidelinedOnlyByFailures | src/upstream.rs:672-691 | under every interleaving of the atomic operations the sidelining ends 30 s after some failure call that counted at least three |
| UpstreamHealth.RestoredForGoodIff | src/upstream.rs:676-691 | after a success has cleared the state it stays clear until the next failure call, under every continuation, if and only if no failure call was still between its increment and its swap |
| UpstreamHealth.OvertakenSuccess | src/upstream.rs:676-691 | a six-step schedule that ends sidelined with no failure counted |
| UpstreamHealth.StepsMakeCalls | src/upstream.rs:676-691 | the atomic steps of one call, with none between, do what the call does alone |
| UpstreamHealth.FailureRun | src/upstream.rs:683-691 | the length of the run of failures that ends a trace: all failures, preceded by a success or nothing |
| UpstreamHealth.Health.RecordFailure | src/upstream.rs:683-691 | the counter, the deadline and the report of a failure |
| UpstreamHealth.Health.RecordSuccess | src/upstream.rs:676-679 | a success resets both fields |
| DotPool.StreamOwnership | src/upstream.rs:287-358 | in every interleaving a stream is in at most one place, a query future or one idle slot of its own endpoint, and no idle stack exceeds eight |
| DotPool.IdleIsClean | src/upstream.rs:322-358 | an idle stream has had every asked-for reply read and nothing half sent on it |
| DotPool.RepliesMatchRequests | src/upstream.rs:287-338 | the message a query returns is the one the server sent in the place of its own request; so if the server answers the requests of the stream in order, each once, it answers the query, on fresh and reused streams (section 3.4 of RFC 7858) |
| DotPool.ReuseTakesYoungest | src/upstream.rs:340-350 | reuse takes the stream returned last to the endpoint, or finds every idle one too old and drops them all |
| DotPool.DroppedStaysDropped | src/upstream.rs:287-358 | a stream dropped by age, error, timeout or a full stack is never used again on any run, whatever the server still sends on it |
| DotPool.StepKeepsInv | src/upstream.rs:287-358 | every step of every query future keeps ownership, balance and stack order |
| DotProgress.StaleFallsThrough | src/upstream.rs:295-303 | an exchange that fails on a pooled stream leaves the query holding none and about to connect |
| DotProgress.StaleIsAnswered | src/upstream.rs:292-307 | in every reachable state such a query is answered all the same: it breaks off, connects, and gets what the server serves on the new stream |
| DotProgress.ExchangeAnswers | src/upstream.rs:326-338 | on a clean stream, fresh or pooled, the query's own steps and one answer of the server end with that answer and the stream returned |
| DotProgress.FailedOnlyBy | src/upstream.rs:287-310 | over any run a query fails only by giving up, or on an error while connecting or on a connection of its own making |
| DotProgress.ReturnedIsOnTop | src/upstream.rs:352-358 | a stream returned with fewer than eight idle is on top of its own endpoint's stack, with eight it is dropped, and no other stack moves |
| DotProgress.ReturnedIsReused | src/upstream.rs:340-358 | returned and asked for again within 30 s it is reused |
| DotProgress.OldIsNotReused | src/upstream.rs:340-350 | from 30 s on nothing is |
| DotProgress.TakesFromItsOwn | src/upstream.rs:340-350 | a query takes only from its own endpoint's stack |
| DotPool.Pop | src/upstream.rs:340-350 | what is left is a prefix, all slots passed over were too old, the one taken is young enough |
| DotPool.PopTakesTop | src/upstream.rs:340-350 | on a stack filled in time order the loop takes its top or empties it |
| DotPool.DotUpstream.Checkout | src/upstream.rs:340-350 | the popping loop computes the specified stack and stream |
| DotPool.DotUpstream.Checkin | src/upstream.rs:352-358 | the stream is pushed if fewer than eight are idle, else dropped |
| LruSpec.RefinesLru | src/observability.rs:219-258 | after any history of serialised calls the registry holds exactly the max(1, capacity) most recently active distinct clients, each with the tally of its events since it last came in |
| LruSpec.TallyCounts | src/observability.rs:102-116 | each counter of a tally is the number of its events |
| LruSpec.ActiveIsLargestSurplus | src/observability.rs:118-128 | the connections counted open are the largest surplus of opens over closes in any final stretch of the events |
| LruSpec.RecencyMeaning | src/observability.rs:215-258 | the reference list is ordered by last call |
| LruSpec.RecencyListsAll | src/observability.rs:219-258 | the reference list holds exactly the clients of the history |
| LruSpec.RegistryAgrees | src/observability.rs:215-258 | ticks order the tracked clients as the reference list does, over any history |
| LruSpec.OldestIsLast | src/observability.rs:241-250 | the client with the least tick is the last of the list |
| ClientRegistry.ObservabilityRegistry.WithClientDo | src/observability.rs:219-258 | recording an event on the map of shared statistics objects is the specified step, eviction included |
| ClientRegistry.ObservabilityRegistry.OldestClient | src/observability.rs:242-246 | the entry found has the least tick, in whatever order the map is walked |
| ClientRegistry.ObservabilityRegistry.NextTick | src/observability.rs:215-217 | ticks are handed out in order, each once |
| ClientRegistry.ObservabilityRegistry.Touch | src/observability.rs:226-231 | a known client gets a new tick and its event, no other client changes |
| ClientRegistry.ObservabilityRegistry.MakeRoom | src/observability.rs:241-250 | a full registry loses exactly an oldest client |
| ClientRegistry.ObservabilityRegistry.Admit | src/observability.rs:252-256 | a new client starts with just this event |
| ClientRegistry.ClientStats.Record | src/observability.rs:102-128 | each event raises its counter; a close saturates at zero |
| Blocklist.RuleMatches | src/blocklist.rs:124-131 | the cursor loop finds a rule if and only if some nonempty rule is the domain or a dot-separated suffix of it |
| Blocklist.NextLabel | src/blocklist.rs:463-478 | the cursor advances to just after the next dot, skipping none, or to the end |
| Blocklist.CoversIsSuffixAtLabel | src/blocklist.rs:463-478 | a rule covers a domain exactly if it is the rest of the domain from some label on |
| Blocklist.DecideIgnoresCase | src/blocklist.rs:105-114 | decisions do not depend on ASCII case |
| BlocklistEngines.BlocklistEngine.Decide | src/blocklist.rs:105-131 | the decision of the running engine is the declarative one: exception, else block, else allow |
| BlocklistEngines.ListedDomainIsBlocked | src/blocklist.rs:48-131 | from file to decision: a domain written in any supported syntax in a block source blocks itself and all below it, unless an exception covers the name |
| ListedDomains.ListedDomainBlocksQueries | src/server.rs:538-543 | from file to client: written without the root dot, it blocks every query for itself or a name below it, with or without root dots on the name, unless an exception covers the name |
| ListedDomains.ListedDomainWorksIff | src/server.rs:538-543 | a listed domain blocks every query for it and below it if and only if it is written without the root dot |
| ListedDomains.DottedRuleIsDead | src/server.rs:538-543 | a rule with the root dot changes no query's fate, whatever other rules there are |
| ListedDomains.DottedLineBlocksNothing | src/blocklist.rs:421-431 | a list of one such line parses without complaint and blocks no query whose name is without whitespace |
| ListedDomains.DottedLineExample | src/blocklist.rs:456-461 | `example.com.` is such a line |
| BlocklistEngines.ExceptionPrevails | src/blocklist.rs:48-131 | an exception written anywhere, or any rule of an allow source, overrides every block rule for the names it covers |
| BlocklistEngines.OrderIsIrrelevant | src/blocklist.rs:59-92 | the engines loaded line by line from two source lists decide alike whenever their lines are the same set, whatever the order, grouping and repetition |
| BlocklistEngines.PermutedSources | src/blocklist.rs:59-92 | reordering the sources keeps that set |
| BlocklistEngines.AfterLinesIs | src/blocklist.rs:71-89 | rules added line by line in file order are the rules of the set of lines |
| BlocklistEngines.AfterSourcesIs | src/blocklist.rs:59-92 | and so for whole sources, however lines are grouped into files |
| BlocklistEngines.BlocklistEngine.LoadPaths | src/blocklist.rs:59-92 | loading succeeds exactly if every source opens and every line reads, and then adds every line's rule and counts every line |
| BlocklistEngines.BlocklistEngine.LoadLines | src/blocklist.rs:70-89 | the same for the lines of one source |
| BlocklistEngines.TallyCounts | src/blocklist.rs:75-89 | the report counts every line, and of them those not understood |
| BlocklistEngines.BlocklistEngine.LoadLine | src/blocklist.rs:75-88 | one line's effect on rules and report |
| BlocklistEngines.BlocklistEngine.InsertRule | src/blocklist.rs:94-103 | a block rule goes where its source says |
| BlocklistEngines.FromSources | src/blocklist.rs:48-57 | the fresh engine stands for its sources, or an error is returned |
| BlocklistEngines.ReloadableBlocklist.Reload | src/blocklist.rs:207-214 | a reload replaces the engine if every source loads, and otherwise leaves the old rules in force |
| BlocklistParser.ParserInvertsPrinter | src/blocklist.rs:364-450 | every clean lower-case dotted domain, bare, anchored, closed, or after an address with or without further names, plain or with "@@", under whitespace and a trailing comment, parses back to its rule |
| BlocklistParser.SkippedIff | src/blocklist.rs:364-390 | over every line: it is passed over exactly if it is blank or its first mark is '#' or '!' |
| BlocklistParser.MarkedIsUnsupported | src/blocklist.rs:373-380 | over every other line: one with '$', "##", "#@#" or "#?#" anywhere gives no rule and counts as unsupported |
| BlocklistParser.EmittedRulesAreWellFormed | src/blocklist.rs:364-461 | every rule emitted from any line is lower case and dotted, does not start with '/', and has no whitespace, '*', '#' or '$' |
| Bits.MaskIsTruncation | src/server.rs:676-688 | at every width and valid prefix the mask is x minus x mod 2^(n-p), and stays a word |
| Bits.AndIsBitwise | src/server.rs:687 | the model's "and" is the bitwise operation |
| Bits.MaskTwice | src/server.rs:676-688 | masking twice is masking with the shorter prefix |
| Bits.MaskEqualIff | src/server.rs:676-688 | two words mask alike if and only if their top bits agree |
| Ecs.SameUpstreamQueryIff | src/server.rs:605-648 | two clients for whom the option is written send one upstream query for one query if and only if they are in one subnet (section 6 of RFC 7871) |
| Ecs.OnlyTheOptionChanges | src/server.rs:605-628 | nothing but the option changes on the way upstream, and only for a client to whom the configuration applies it |
| Ecs.OptionSent | src/server.rs:605-648 | the option sent: the client's address with all below the configured prefix cleared, that prefix, scope zero; a query without EDNS gets one that asks for nothing else |
| Ecs.NothingSent | src/server.rs:605-643 | where the option does not apply, or without a client address, the query goes upstream as it came |
| Ecs.PublicV4Iff | src/server.rs:650-660 | the excluded IPv4 addresses are those of ten special-purpose blocks |
| Ecs.PublicV6Iff | src/server.rs:661-666 | the excluded IPv6 addresses are the unspecified and loopback ones, fc00::/7 and fe80::/10 |
| Metrics.MetricsRecorder.RecordPendingFollowerResolved | src/metrics.rs:163-167 | one follower fewer, one success more, no other counter moves |
| Metrics.MetricsRecorder.RecordPendingFollowerTimeout | src/metrics.rs:169-173 | one follower fewer, one timeout more, no other counter moves |

## Left out

- The DNS wire codec and name handling are abstract. The pending key is computed with an injective encoder that may fail; names are equal up to ASCII case, as the codec library compares them; conversion of internationalised names and lower-casing outside ASCII are not modelled.
- A client-subnet option is kept decoded in the cache key; the source keeps its encoding, and none when it does not encode.
- Replies are trusted to the wire: neither the source nor the model checks that an upstream reply carries the query's id or question.
- TLS, sockets, HTTP, listeners, certificates, the command line, the management protocol, logging, formatting and the persistence of statistics.
- Bootstrap resolution, the plain and HTTPS upstreams, and `DotUpstream::query`'s loop over endpoints, which turns every endpoint error, timeouts included, into a network error.
- Downloads of remote lists. A reload is one atomic swap, and the end-to-end results are for a fixed blocklist, because a reload does not flush the cache.
- The EDNS of a cache hit: the cache keeps that of the first response stored, and nothing is claimed about it.
- `accept_loop`'s connection permits and gauge, and the query, hit, miss and blocked counters: they would add easy members.
- Task panics, runtime shutdown, lock poisoning and the wrap-around of counters are assumed away.
- The watch channel follows its documentation: a value is stored only while a receiver exists, a closed channel wakes its receivers, and the last value stays readable.
- PoolObject.UpstreamPool.Query: runs without interference from other queries. Interleaved queries are covered by the accounting results at the granularity of one recorded attempt, and by the health results at that of one atomic operation; the pause between attempts is not modelled.
- PoolObject.UpstreamPool.Record: the pool always has metrics and statistics, as the server builds it (src/main.rs:362-368), so their absence is not modelled; statistics are values in one map field, not shared atomics.
- LruSpec.RefinesLru: for calls executed one at a time. On concurrent fast paths the draw of a tick and its store are separate steps, so exact recency is not claimed there.
- TtlCache.GetRefinesHistory: from 2^32 seconds of life on, the cast in the source truncates, and the contract says so instead of excluding it.
- DotPool.RepliesMatchRequests: the bytes of a message are two phases, begun and complete, and an answer that does not decode is a broken exchange; the server may send anything at any time, and its answering in order is a hypothesis of the statement only where it says so.
- ListedDomains.ListedDomainWorksIff: for query names whose presentation form has no whitespace; trimming whitespace off a name is modelled, but nothing is claimed about such names here.
- ResolverTheorems.EveryAnswerIsExplained: the age of a cached response counts from when it was stored, as in the source, not from when the upstream sent it.
- The prefix lengths of the client-subnet option are those that configuration validation admits (src/config.rs:167-178).
