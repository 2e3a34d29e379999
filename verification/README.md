# A verified model of the news proxy's state machines

The repository is a caching news proxy: it answers searches from a cache, sends one upstream
call per miss, shares cold misses between replicas by a Redis lease, and shields the provider
with a circuit breaker.  This project models its stateful core in Dafny and proves what holds
over every run of it: every order of callbacks, timers, Redis commands and overlapping requests.

Where the source changes state step by step (classes, closures, loops over an index), the model
has a class or a method with a loop, whose contract equates the new state with a function of the
old one.  The theorems are lemmas about those functions and about runs of the steps they define.

| file | models |
|---|---|
| `LeaseCell.dfy` | the Redis lease cell, its three commands, and the heartbeat |
| `Coordinator.dfy` | one call of `coordinateCacheMiss`: its phases and its polling loop |
| `LeaseProtocol.dfy` | any number of such calls on one cell, with commands in transit, lost and repeated |
| `LeaseTiming.dfy` | how timely the heartbeat has to be, and single flight from its timing |
| `HeartbeatBound.dfy` | that its bound is exact: beyond it, a timely run in which the lease lapses |
| `Coalescing.dfy` | the in-flight map of one process, its waiters and cancellation |
| `Answers.dfy` | cache readers and writers, flights, and where every answer comes from |
| `CacheKey.dfy` | the JSON cache key and the stale key |
| `CircuitBreaker.dfy` | the breaker under overlapping requests |
| `MemoryStore.dfy` | the LRU store over NodeCache |
| `Conditional.dfy` | the If-None-Match scanner |
| `LogLimiter.dfy` | the windowed log limiter |
| `Shutdown.dfy` | the shutdown handler |

## Where the code and its documentation differ

The model follows the code.

- `docs/ARCHITECTURE.md:146` and `README.md:34` promise exactly one half-open probe at a time, with
  others refused until it settles.  The code keeps this if and only if no request can stay in flight
  for as long as the cooldown (`OneProbeExactly`); a straggler admitted before the circuit opened
  breaks it (`TwoProbesInFlight`).  The same line says that a probe's failure opens the circuit again;
  that holds if and only if no request can stay that long or the threshold is a single failure
  (`ReopensExactly`).  At the defaults, a cooldown of 30 seconds, a threshold of 3 and searches of up
  to 60 seconds (`src/config/upstream.ts:9-20`), neither holds (`DefaultsKeepNeither`).
- `src/http/conditional.ts:45-48` treats a backslash as an escape, which section 8.8.3 of RFC 9110
  does not.  A well-formed list is read back exactly if and only if no tag's content ends in an odd
  run of backslashes (`RoundTrip`), and the decision on a list of tags is right for every current tag
  under the same condition (`HeaderDecidedExactly`, `RepeatedDecidedExactly`).  It goes wrong both
  ways: the tag `"a\"` is never seen (`BackslashHidesTag`), and `"a\","x,*"`, which holds no `*`,
  matches every current tag (`HiddenStarMatchesAll`).
- Repeated If-None-Match values are joined before they are read.  Together they match exactly what one
  of them does, whatever the next value, if and only if a value is read to its end or has a `*`
  (`JoinsWellExactly`).
- `docs/ARCHITECTURE.md:129` exposes the eviction counter as the number of evictions.  It also counts
  keys that NodeCache had already dropped (`EvictionCount` says exactly when), and the `recency` map
  has no bound of its own (`RecencyUnbounded`); it has one key per entry as long as no background
  sweep finds anything (`RecencyExactly`).
- The limiter's burst is per window; an interval of one window's length can see up to
  `2 * burst - 1` warnings, and does in some run (`SlidingBound`, `SlidingBoundIsTight`).
- `docs/OPERATIONS.md:113` promises that coalesced upstream work continues for remaining waiters.  For
  a caller whose signal never fires that holds, whoever else leaves, if and only if the flight it joins
  has not been aborted by then (`WorkContinuesExactly`; `JoinsAbortedFlight` is a run where it has).
  Such a caller is answered with an abort exactly if the provider's call was canceled from within
  (`AbortedFromWithin`).
- The same line promises an abort when no waiters remain.  That holds if and only if somebody was ever
  counted as waiting (`AbandonedExactly`): a caller aborted before it registers leaves its flight running.
- A caller aborted just after acquiring, or one that loses the answer, leaves its lease behind
  (`LeaseLeftBehind`, `AbortedAcquirerLeaks`, `LostAnswerLeaks`) for at most the time to live
  (`LeakBounded`, `EndedWithoutRelease`).  A repeated acquire is refused to the caller that has the lease
  (`ResentAcquireRefused`), since `src/cache/store.ts:147-150` compares no owner: nobody waits for its
  own lease if and only if acquires are not sent again (`WaitsForItselfExactly`).

## Model

| member | source | states |
|---|---|---|
| LeaseCell.RedisLeaseStore.TryAcquireLease | src/cache/store.ts:147-150 | SET NX PX: succeeds exactly on a dead cell, and then the caller owns it until now plus ttl |
| LeaseCell.RedisLeaseStore.ReleaseLease | src/cache/store.ts:13-18 | compare and delete, with the whole new cell |
| LeaseCell.RedisLeaseStore.RenewLease | src/cache/store.ts:20-25 | compare and pexpire, with the whole new cell and the reply |
| LeaseCell.OwnerSafety | src/cache/store.ts:13-25 | a release or renewal by a token changes nothing unless that token owns a live lease, and never revives one that expired or was released |
| LeaseCell.TwoBeatsFit | src/config/cache.ts:31-38 | for every configured value, two heartbeats fit into the ttl if and only if the ttl is at least 2 |
| LeaseCell.HeartbeatTaken | src/config/cache.ts:31-38 | a configured interval within bounds is taken as it is, and every other setting gives the largest interval allowed |
| LeaseCell.LeaseHeartbeat.Stop | src/cache/coordinator.ts:91-97 | the heartbeat is stopped |
| LeaseCell.LeaseHeartbeat.Beat | src/cache/coordinator.ts:98-104 | a tick sends a renewal exactly when not stopped, not aborted and none is in flight |
| LeaseCell.LeaseHeartbeat.Reply | src/cache/coordinator.ts:105-120 | a lost lease stops the heartbeat for good, an error does not, and either lets the next beat go |
| LeaseCell.HeartbeatRuns | src/cache/coordinator.ts:88-126 | over any run of ticks, replies and stops: never two renewals on their way, none after a stop or a lost lease, none from ticks that find the signal fired, and otherwise an idle heartbeat renews on the first clear tick |
| Coordinator.CallAccounting | src/cache/coordinator.ts:144-210 | over every history: exactly one load if the call ends with a load's result, none if canceled or served from the cache, and exactly one release if it went on with the lease, else none |
| Coordinator.HistoriesExactly | src/cache/coordinator.ts:144-210 | the histories of calls are exactly the event sequences whose neighbours may follow each other, by a rule on events alone: a poll that finds nothing goes to the deadline, one that finds the value ends the call, a failed one loads |
| Coordinator.EndsAsTold | src/cache/coordinator.ts:144-210 | an ended call is shared if and only if it was told of a value with a clear signal, canceled if and only if its signal cut it, and loaded or failed if and only if its load ended so |
| Coordinator.RoundsDecide | src/cache/coordinator.ts:144-210 | the result of a call is the one computed from the rounds it meets, without its phases |
| Coordinator.LeaseLeftBehind | src/cache/coordinator.ts:147-153 | an ended call that was told it has the lease sent no release if and only if its signal had fired by then, and then it loaded nothing |
| Coordinator.WorldDecides | src/cache/coordinator.ts:144-210 | the events met in a given world determine the whole history, so the history the loop returns is the only one |
| Coordinator.SleepFor | src/cache/coordinator.ts:32-35 | a sleep before the deadline lasts at least a millisecond and not past the deadline, and as asked if that is in between |
| Coordinator.LoadWithoutCoordination | src/cache/coordinator.ts:53-59 | loads once, outside the lease, and ends with the load's result |
| Coordinator.HoldLease | src/cache/coordinator.ts:157-182 | recheck, then load if nothing was found, and release on every way out, before the exit |
| Coordinator.TryLease | src/cache/coordinator.ts:145-182 | one turn up to the lost race: at most one attempt, and a history that ends the call or goes on to poll |
| Coordinator.PollCache | src/cache/coordinator.ts:189-202 | the poll of the cache: canceled, failed, found or go on to the deadline |
| Coordinator.LoadOrSleep | src/cache/coordinator.ts:204-209 | at the deadline a load, before it a sleep that moves the clock on |
| Coordinator.CoordinateCacheMiss | src/cache/coordinator.ts:129-211 | the polling loop ends, within waitMs + 1 attempts, with the result that the rounds alone decide, and its log is the true history of the call in that world |
| LeaseProtocol.LeaseStepKeeps | src/cache/coordinator.ts:144-182 | every step of every caller, command and clock keeps: a grant in force owns the cell, and no release or renewal travels for a caller that never went on with the lease |
| LeaseProtocol.MutualExclusion | src/cache/store.ts:147-157 | in every run, expiry and late commands included, a caller within ttl of its last applied acquire or renewal and not released owns the cell; at most one is; two loads under the lease overlap only after a lapse |
| LeaseProtocol.CommandsConserved | src/cache/coordinator.ts:98-182 | in every run each command on its way or applied was asked for or sent again: acquires by attempts, writes by provider answers, renewals by clear ticks, releases by callers done with the lease |
| LeaseProtocol.ReleaseFrees | src/cache/store.ts:13-18 | a release applied while the lease is in force frees the cell at once for any other caller's acquire |
| LeaseProtocol.LeakBounded | src/cache/coordinator.ts:147-153 | in every run, a lease whose caller never went on with it, canceled or with its answer lost, is dead from its acquisition plus ttl |
| LeaseProtocol.FollowsRun | src/cache/coordinator.ts:144-210 | in every run each caller's phase is where the history of what it was told leads, so the results on one call hold for all callers |
| LeaseProtocol.EndedWithoutRelease | src/cache/coordinator.ts:144-182 | in every run a caller that has ended sent one release if it ever went on with the lease, else none, and then its lease is dead from its acquisition plus ttl |
| LeaseProtocol.AbortedAcquirerLeaks | src/cache/coordinator.ts:147-153 | a run that ends with the caller canceled and the lease in force as its own |
| LeaseProtocol.LostAnswerLeaks | src/cache/coordinator.ts:150-154 | a run in which a caller that lost the answer loads outside the lease it owns |
| LeaseProtocol.OnlyResentWaitsForItself | src/cache/coordinator.ts:144-210 | in every run in which a caller's acquire is not sent again, that caller never waits while it owns a live cell |
| LeaseProtocol.WaitsForItselfExactly | src/cache/coordinator.ts:144-210 | no run has a caller waiting for itself if and only if acquires are not sent again |
| LeaseProtocol.ResentAcquireRefused | src/config/redis.ts:34-46 | the run of the other case: the repeated acquire is refused to the caller that owns the cell, which then waits |
| LeaseProtocol.CalmStepKeeps | src/cache/coordinator.ts:157-182 | while no held lease lapses, rechecks see what is stored, writes are applied before their reply and nobody loads outside the lease, whoever is about to write has the lease and the entry is still missing |
| LeaseProtocol.CalmPut | src/services/newsService.ts:237-238 | in a calm run a fresh write is applied while its caller still loads under the lease |
| LeaseProtocol.SingleFlight | src/cache/coordinator.ts:157-182 | for any number of callers and any calm interleaving: never two loads at once, at most one provider answer until the entry goes, and no load starts once the entry is written |
| LeaseProtocol.LapseOverlaps | src/cache/coordinator.ts:157-175 | once a lease outlives its ttl unrenewed a run with two overlapping loads exists, so the calm is needed |
| LeaseTiming.RenewalsKeepLease | src/cache/store.ts:20-25 | in every run, with all other callers' commands in between, a lease not released whose renewals are applied less than ttl apart never lapses, and its caller owns the cell |
| LeaseTiming.NextRenewal | src/cache/coordinator.ts:98-101 | with ticks skipped while a reply is outstanding, the next renewal comes one tick after the latest tick that can be skipped |
| LeaseTiming.SecureStep | src/cache/coordinator.ts:88-126 | every step in time for a caller, its own or another's, keeps the next renewal ahead of the end of the lease |
| LeaseTiming.HeartbeatKeepsLease | src/cache/coordinator.ts:77-127 | in every run in time for a caller, with any timing of the others, that caller owns the cell for as long as it goes on with the lease: late timers, skipped ticks, lost renewals and aborts included |
| LeaseTiming.LossesSurvived | src/cache/coordinator.ts:98-125 | with replies before the next tick, that many lost renewals in a row are survived if and only if the ttl is more than lag, one tick more than the losses, and the rest of a renewal |
| LeaseTiming.ConfiguredBeatSuffices | src/config/cache.ts:31-38 | whatever heartbeat is configured, it suffices if no renewal is lost, replies come before the next tick, and lag, lateness of the timer and rest of a renewal take less than half the ttl together |
| LeaseTiming.TimelyRunIsCalm | src/cache/coordinator.ts:157-182 | if every caller's heartbeat is on time and nothing else disturbs the run, no held lease lapses |
| LeaseTiming.SingleFlightOnTime | src/cache/coordinator.ts:157-182 | with every heartbeat on time: at no point two loads, one provider answer until the entry goes, no load from when it is written |
| HeartbeatBound.LongPause | src/cache/coordinator.ts:98-120 | the pause between renewals that the skip rule allows is reached |
| HeartbeatBound.HeartbeatExactly | src/cache/coordinator.ts:77-127 | for every ttl and every timing with a beat of at least a millisecond: no timely run has a caller going on with a lapsed lease if and only if the ttl covers the bound |
| Coalescing.Subscription.constructor | src/services/newsService.ts:272-276 | registering adds one waiter |
| Coalescing.Subscription.Release | src/services/newsService.ts:277-287 | counts once however often it is called, and aborts when it takes the last waiter from an unsettled entry |
| Coalescing.InFlightSearches.GetOrCreate | src/services/newsService.ts:333-334 | joins the entry in the map, or adds a new one under the key and leaves the others |
| Coalescing.InFlightSearches.MarkInFlightSettled | src/services/newsService.ts:241-246 | settles the entry and removes it, never a successor with the same key |
| Coalescing.Accounting | src/services/newsService.ts:241-309 | in every run: the map holds exactly the unsettled entries, one per key; subscribers equals the registered unreleased waiters; every abort has a registered waiter that left |
| Coalescing.StepKeeps | src/services/newsService.ts:268-309 | each step of caller, flight and marker keeps that accounting |
| Coalescing.OneFlightPerKey | src/services/newsService.ts:333-334 | two unsettled entries never share a key |
| Coalescing.AbortsByLastWaiter | src/services/newsService.ts:284-291 | the count aborts an entry if and only if the step is the last registered waiter leaving by its own signal while the entry is unsettled |
| Coalescing.WaiterSettlesOnce | src/services/newsService.ts:275-308 | a waiter's end is final, canceled by its own signal only, otherwise the outcome of its entry |
| Coalescing.OthersNeverCancel | src/services/newsService.ts:288-308 | in every run a caller whose own signal never fired is never canceled: it waits or has the outcome of its entry |
| Coalescing.CallerSteps | src/services/newsService.ts:268-346 | a caller joins the entry in flight or starts one; arriving aborted it is canceled and never counted, else it is counted and waits; its signal cancels it, the settled entry gives it the outcome |
| Coalescing.AnswerStands | src/services/newsService.ts:275-282 | once a waiter has settled, no continuation of the run changes it |
| Coalescing.EveryoneIsAnswered | src/services/newsService.ts:298-307 | with the callbacks run, every waiter of an ended flight has its outcome or was canceled |
| Coalescing.UnregisteredNeverAborts | src/services/newsService.ts:272-273 | an entry whose callers were all aborted before registering keeps a zero count and is never aborted by it |
| Coalescing.FlightSurvives | src/services/newsService.ts:284-291 | while a caller stays whose signal does not fire, no run of the others changes whether its flight is aborted |
| Coalescing.WorkContinuesExactly | src/services/newsService.ts:284-338 | the flight of a caller whose signal never fires stays unaborted in every continuation if and only if it was not aborted when the caller joined |
| Coalescing.AbandonedExactly | src/services/newsService.ts:272-286 | in every run an unsettled entry that nobody waits for is aborted if and only if somebody was ever counted for it |
| Coalescing.JoinsAbortedFlight | src/services/newsService.ts:333-338 | a run of the failing kind: a caller whose signal never fires joins an aborted entry and gets its abort error |
| Answers.CacheClient.ReadCachedArticles | src/services/newsService.ts:55-97 | a reader gives a list or nothing, never an error, and removes what is not a list unless the deletion fails |
| Answers.CacheClient.DeleteCorruptCacheEntry | src/services/newsService.ts:145-156 | removes the entry, or nothing, without an error |
| Answers.CacheClient.WriteCachedArticles | src/services/newsService.ts:158-186 | writes the fresh and the stale entry, each whatever became of the other |
| Answers.WrittenIsRead | src/services/newsService.ts:55-186 | each entry reads as the written list unless its own write failed, then as before; the entries of another search read as before |
| Answers.JunkGoes | src/services/newsService.ts:75-87 | a read gives the list if one is there and readable; a payload that is no list reads as nothing and is gone unless its deletion fails; no other entry changes |
| Answers.JsonKeysApart | src/services/newsService.ts:33-48 | fresh and stale keys of any two searches are equal only between the same kinds of key of searches that say the same |
| Answers.FlySound | src/services/newsService.ts:194-238 | each step of a flight leaves under every key only lists produced for that key's search, and carries only such a list |
| Answers.FallbackEnds | src/services/newsService.ts:213-233 | behind a provider failure the flight can do nothing but read the stale entry, and ends with its list as stale if it is there and readable, else failed |
| Answers.FlightsInOrder | src/services/newsService.ts:194-238 | in every run each flight takes its steps in order: no fallback without a failed load, no end without the writes behind a list |
| Answers.EveryCallerGetsTheAnswer | src/services/newsService.ts:194-239 | in every run, once nothing more can happen for a flight, each of its callers not canceled by its own signal has the shared entry, the abort, the provider's list or the stale fallback, as the run's steps decided |
| Answers.Provenance | src/services/newsService.ts:194-238 | in every run with lost, corrupt, late and foreign writes, every list a caller gets was returned by the provider for a search with the same query, count, page and optional fields |
| Answers.WritesAlwaysEnd | src/services/newsService.ts:237-238 | whatever each write does, the flight ends with the provider's list |
| Answers.LoadedStays | src/services/newsService.ts:215-238 | once the provider has answered, no later step of the flight changes its list |
| Answers.FailOpen | src/services/newsService.ts:207-239 | once the provider has answered an unaborted flight, every caller the flight ever answers gets exactly that list, in every continuation |
| Answers.EveryWaiterGetsTheList | src/services/newsService.ts:207-239 | once the provider has answered an unaborted flight and nothing more can happen for it, every caller of the flight not canceled by its own signal has exactly that list, whatever the cache and lease commands did |
| Answers.AbortedFromWithin | src/services/newsService.ts:213-220 | a caller whose signal never fires and who joined an unaborted flight is answered with an abort if and only if the provider's call was canceled though no leaving caller aborted the flight |
| Answers.OneMissPerFlight | src/services/newsService.ts:338-345 | of all callers of a flight at most the one that started it reports a miss |
| Answers.ReportsTheAnswer | src/services/newsService.ts:201-238 | a caller at rest reports stale for the fallback, coalesced for a shared entry, and for the provider's list miss if it started the flight and coalesced if it joined |
| Answers.HitReported | src/services/newsService.ts:327-331 | a caller that finds the fresh entry reports a hit with that list for good |
| CacheKey.EscapeRoundTrip | src/services/newsService.ts:33-44 | reading an escaped JSON string gives back the text and what followed, lone surrogates included |
| CacheKey.QuoteCancels | src/services/newsService.ts:33-44 | two quoted texts at the front of equal strings are equal, and so is the rest |
| CacheKey.DecimalCancels | src/services/newsService.ts:33-44 | two printed integers before a comma at the front of equal strings are equal, and so is the rest |
| CacheKey.FieldsInjective | src/services/newsService.ts:38-42 | the printed optional fields determine each field: the same text, or no text on both sides |
| CacheKey.KeyInjective | src/services/newsService.ts:33-44 | two searches have the same cache key if and only if query, count and page are equal and each optional field has the same text or no text in both |
| CacheKey.StaleKeysApart | src/services/newsService.ts:46-48 | no stale key is a fresh key, and stale keys are equal if and only if the searches say the same |
| CircuitBreaker.CircuitState.AssertCircuitAllowsRequest | src/providers/gnewsProvider.ts:68-97 | admission, refusal with Retry-After, and the change to half open |
| CircuitBreaker.CircuitState.CloseCircuit | src/providers/gnewsProvider.ts:99-106 | the whole record is as new |
| CircuitBreaker.CircuitState.RecordProviderFailure | src/providers/gnewsProvider.ts:108-115 | counts, clears the probe flag and opens at the threshold unless open already |
| CircuitBreaker.CircuitState.RecordCanceledProbe | src/providers/gnewsProvider.ts:117-124 | only a probe's cancellation changes the record: it opens again from now |
| CircuitBreaker.CircuitState.SettleSearch | src/providers/gnewsProvider.ts:228-281 | the success path and all branches of the catch block |
| CircuitBreaker.RetryAfter | src/providers/gnewsProvider.ts:59-66 | between one second and the maximum |
| CircuitBreaker.RetryAfterSuffices | src/providers/gnewsProvider.ts:59-97 | a refused caller that waits out its Retry-After is admitted as the probe, and a second less is refused again |
| CircuitBreaker.RetryAfterExactly | src/providers/gnewsProvider.ts:59-91 | a refusal changes nothing; it says one second while a probe is under way, else the least whole seconds that cover what is left, capped |
| CircuitBreaker.LetThrough | src/providers/gnewsProvider.ts:68-97 | a request is let through if and only if the circuit is closed with no probe under way, or open with the cooldown passed, and then as a probe |
| CircuitBreaker.SettlementBySignals | src/providers/gnewsProvider.ts:241-276 | who aborted decides: caller or process is a cancellation, the deadline alone a provider failure, whatever came back; success and permanent error exactly otherwise |
| CircuitBreaker.ProbeGivesSlotBack | src/providers/gnewsProvider.ts:99-124 | no end of a probe leaves the slot taken, and no other request's end takes it |
| CircuitBreaker.BreakerInvariant | src/providers/gnewsProvider.ts:68-124 | in every run with any overlap and any clock: never open and half open; neither implies failures below the threshold; a taken slot has a probe in flight |
| CircuitBreaker.FailuresAreInARow | src/providers/gnewsProvider.ts:99-124 | in every run the failure count is the number of provider failures since the last success or permanent error of a probe, counted from the steps |
| CircuitBreaker.CircuitSteps | src/providers/gnewsProvider.ts:68-124 | in every run the circuit opens exactly by a failure that brings that count to the threshold or by a probe's cancellation, stops being open exactly by a probe let through, a success or a probe's permanent error, and a closed request's cancellation or permanent error changes nothing |
| CircuitBreaker.TimedSingleProbe | src/providers/gnewsProvider.ts:68-124 | when requests settle within less than the cooldown, a probe in flight is the only request in flight, and open or half open means the threshold was reached |
| CircuitBreaker.OneProbeExactly | src/providers/gnewsProvider.ts:68-115 | two probes are never in flight together if and only if requests settle within less than the cooldown |
| CircuitBreaker.TwoProbesInFlight | src/providers/gnewsProvider.ts:108-115 | for every configuration the run in which a straggler's failure lets a second probe in |
| CircuitBreaker.CanceledProbeOpensEmpty | src/providers/gnewsProvider.ts:117-124 | the run after which the circuit is open with no failures |
| CircuitBreaker.LateProbeDoesNotReopen | src/providers/gnewsProvider.ts:108-124 | a run after which a failing probe leaves the circuit closed |
| CircuitBreaker.ReopensExactly | src/providers/gnewsProvider.ts:68-124 | every failing probe leaves the circuit open if and only if requests settle within less than the cooldown or the threshold is one |
| CircuitBreaker.DefaultsKeepNeither | src/config/upstream.ts:9-20 | with the default threshold, cooldown and total timeout, two probes can be in flight and a probe's failure can leave the circuit closed |
| MemoryStore.MemoryStore.Touch | src/cache/store.ts:51-54 | the key becomes the most recent one |
| MemoryStore.MemoryStore.EvictLeastRecentlyUsed | src/cache/store.ts:56-72 | the oldest key goes from both structures; the fallback branch is dead |
| MemoryStore.MemoryStore.EvictUntilRoom | src/cache/store.ts:82-84 | the loop ends, with the simple eviction function's state |
| MemoryStore.MemoryStore.MakeRoom | src/cache/store.ts:74-85 | the key is gone and NodeCache has room for it |
| MemoryStore.MemoryStore.Get | src/cache/store.ts:88-96 | the value and both structures afterwards |
| MemoryStore.MemoryStore.Set | src/cache/store.ts:97-101 | both structures afterwards, and NodeCache never refuses the key |
| MemoryStore.MemoryStore.Delete | src/cache/store.ts:102-105 | the key goes from both structures |
| MemoryStore.MemoryStore.Sweep | src/cache/store.ts:46-49 | a background expiry that recency does not see keeps the store valid |
| MemoryStore.GetRefines | src/cache/store.ts:88-96 | a read is a read of the plain LRU cache |
| MemoryStore.SetRefines | src/cache/store.ts:74-101 | a write is a write of the plain LRU cache |
| MemoryStore.SweepRefines | src/cache/store.ts:46-49 | an expiry behind the store's back only takes the expired keys out of the LRU order |
| MemoryStore.StoreIsLru | src/cache/store.ts:46-107 | every mix of reads, writes, deletes and background expiry answers as a plain LRU cache of maxKeys entries, with the same entries in the same order of last use |
| MemoryStore.OrderIsLastUse | src/cache/store.ts:51-101 | in every run the order of the present keys is that of the last write or successful read of each |
| MemoryStore.ValueLasts | src/cache/store.ts:88-101 | a value written for ttlSec seconds, not overwritten, deleted, evicted or looked at too late, is read back up to 1000 * ttlSec ms later and not after |
| MemoryStore.SetDropsOldestOnly | src/cache/store.ts:74-101 | a write drops at most one present entry besides its own key, the least recently used one, and only when the others fill the cache |
| MemoryStore.WithRoomDrops | src/cache/store.ts:82-84 | in a full cache the loop drops exactly the head of the order, past any keys already lost |
| MemoryStore.EvictionCount | src/cache/store.ts:56-63 | the counter grows by the entries dropped if and only if there was room or the oldest key is still present |
| MemoryStore.GhostsOnlyFromSweeps | src/cache/store.ts:46-107 | from a store without lost keys, recency has one key per entry, and only a sweep that finds something leaves lost keys |
| MemoryStore.RecencyExactly | src/cache/store.ts:46-107 | over every run, recency has exactly one key per entry throughout if and only if no sweep finds an expired entry |
| MemoryStore.RecencyUnbounded | src/cache/store.ts:46-63 | whatever number of keys is allowed, recency can hold any number |
| Conditional.SkipQuoted | src/http/conditional.ts:42-56 | finds the closing quote, past escape pairs, or that there is none |
| Conditional.ScanTag | src/http/conditional.ts:30-64 | one tag, one unclosed tag or junk up to a comma |
| Conditional.NextTag | src/http/conditional.ts:15-64 | one turn of the outer loop |
| Conditional.ParseEntityTags | src/http/conditional.ts:11-68 | the tags of the whole header, in order |
| Conditional.MatchesIfNoneMatch | src/http/conditional.ts:74-83 | some tag of the header is `*` or equal to the current one up to the weak prefix; missing and empty headers match nothing |
| Conditional.TagsAtMember | src/http/conditional.ts:24-64 | reading one written member leaves exactly the rest of the list |
| Conditional.PairsUpExactly | src/http/conditional.ts:44-56 | the scanner sees the closing quote of a content if and only if its trailing backslashes are even in number |
| Conditional.RoundTrip | src/http/conditional.ts:11-68 | a list of well-formed members joined with commas and any white space is read back exactly if and only if no content ends in an odd run of backslashes |
| Conditional.GapExactly | src/http/conditional.ts:16-18 | the scanner skips exactly commas and the white space of `\s`, listed by character |
| Conditional.StarReadAtOnce | src/http/conditional.ts:24-28 | a star is read wherever a member may start, and needs no separator |
| Conditional.JunkBehindTag | src/http/conditional.ts:62-64 | whatever stands behind a tag up to the next comma is lost, and the tag is read |
| Conditional.JunkLost | src/http/conditional.ts:35-40 | what starts neither a tag nor a star is lost up to the next comma |
| Conditional.UnclosedEndsList | src/http/conditional.ts:42-60 | a quote that is never closed ends the list without a tag |
| Conditional.BackslashHidesTag | src/http/conditional.ts:45-48 | a well-formed tag whose content ends in a backslash is not seen |
| Conditional.AcceptsIsWeakComparison | src/http/conditional.ts:70-82 | comparing without prefixes is weak comparison of contents (section 8.8.3.2 of RFC 9110) |
| Conditional.HeaderDecidedExactly | src/http/conditional.ts:74-83 | a list of well-formed tags is decided as section 13.1.2 of RFC 9110 asks, for every current tag, if and only if no content ends in an odd run of backslashes |
| Conditional.StarDecidedExactly | src/http/conditional.ts:74-83 | a list with `*` among its members is decided rightly for every current tag if and only if a `*` is read |
| Conditional.HiddenStarMatchesAll | src/http/conditional.ts:24-48 | the header `"a\","x,*"`, of two well-formed tags and no `*`, matches every current tag |
| Conditional.RepeatedDecidedExactly | src/http/conditional.ts:79-82 | lists of well-formed tags as repeated values are decided rightly together if and only if no content of any ends in an odd run of backslashes |
| Conditional.JoinedValuesMatch | src/http/conditional.ts:79-82 | values of any text, all but the last read to their ends, match together if and only if one of them does |
| Conditional.JoinsWellExactly | src/http/conditional.ts:79-82 | a value joins well with every next value, for every current tag, if and only if it is read to its end or has a `*` |
| Conditional.TagsReadWhole | src/http/conditional.ts:15-65 | on any text, every tag returned is `*` or a text that the scanner itself reads to its end and no further |
| LogLimiter.HttpServerLogLimiter.Take | src/runtime/httpServerEvents.ts:47-68 | the decision and every event's window afterwards |
| LogLimiter.Conservation | src/runtime/httpServerEvents.ts:47-68 | over every call sequence: calls are let through or held back, and those held back are exactly the reported plus the pending ones |
| LogLimiter.ReportsAreEmitted | src/runtime/httpServerEvents.ts:51-58 | a count of held-back calls is reported only with a warning that is let through and opens a window |
| LogLimiter.WindowBudget | src/runtime/httpServerEvents.ts:51-64 | what an interval may still let through, from the state of the open window |
| LogLimiter.SlidingBound | src/runtime/httpServerEvents.ts:51-64 | any interval of one window's length lets at most 2 * burst - 1 warnings of an event through |
| LogLimiter.SlidingBoundIsTight | src/runtime/httpServerEvents.ts:51-64 | for every burst and window of at least 2 ms some run reaches that bound |
| LogLimiter.WindowsApart | src/runtime/httpServerEvents.ts:51-58 | in every call sequence and under any clock, two windows of an event start at least windowMs apart |
| Shutdown.ShutdownHandler.StartCleanup | src/runtime/shutdown.ts:30-35 | cleanup starts once, with the first exit code |
| Shutdown.ShutdownHandler.CleanupSettled | src/runtime/shutdown.ts:40-49 | the timer is cleared, and the exit follows unless forced or without a code |
| Shutdown.ShutdownHandler.ForceExit | src/runtime/shutdown.ts:52-63 | forces once and never after cleanup is over |
| Shutdown.ShutdownHandler.Finish | src/runtime/shutdown.ts:65-77 | only the first close outcome counts |
| Shutdown.ShutdownHandler.Signal | src/runtime/shutdown.ts:79-94 | the first signal arms the timer and closes, with any callbacks at once and a throw; later ones only report |
| Shutdown.AtMostOnce | src/runtime/shutdown.ts:21-95 | in every interleaving: at most one cleanup and one exit, and the code is 1 if and only if forced or close failed |
| Shutdown.ExitsWhenAtRest | src/runtime/shutdown.ts:21-95 | a started shutdown with nothing left to happen has exited exactly once and cleaned up exactly once |
| Shutdown.RestIsReached | src/runtime/shutdown.ts:21-95 | in every run timer and cleanup take at most two steps, and a started shutdown that has not exited can still take one, so it exits if they are let run |
| Shutdown.RepeatsCounted | src/runtime/shutdown.ts:79-83 | in every run every signal but the first is reported as a repeat |
| Shutdown.ExitsAsJudged | src/runtime/shutdown.ts:21-95 | the exits of any run are those an onlooker derives from the order of events alone |

## Left out

- The Express application, its routes, middleware, error mapping, OpenAPI client and deployment files.
- Redis, NodeCache, axios, timers and promises themselves: each command, callback and timer firing is one atomic step; a cell or entry is taken to be dead from its expiry time on, NodeCache's once the clock is past it. A Redis that loses its data is not modelled.
- The Redis command runner's connection limits (`src/redis/commandRunner.ts`) are left out; the client's resend after a lost reply is a step of `LeaseProtocol`, allowed any number of times, and the reply of an older copy may answer a later attempt.
- `LeaseTiming`: the replicas and Redis share one clock, and the timings are upper bounds given per caller.
- `Coordinator.LoadWithoutCoordination`: does not model the `source` label, which in the modelled branch is always "upstream"; only the bypass is labelled "bypassed", and the caller tells apart nothing but "shared-cache".
- `LeaseCell.RedisLeaseStore.TryAcquireLease` and the other lease commands: one lease key at a time; owner tokens are distinct numbers, and the SHA-256 lease key is left out.
- `Coordinator.CoordinateCacheMiss`: the bypass without a lease store (`src/cache/coordinator.ts:132-136`) is a plain load and is left out; the signal and the answers of each round come from a given world.
- `LeaseCell.HeartbeatMs`: a setting is missing or an integer; parsing text into numbers is left out.
- `MemoryStore`: the internals of NodeCache are assumed (a map with expiry times, a key limit that refuses new keys, a sweep), and stored values are never undefined.
- `CacheKey.SearchCacheKey`: count and page are integers.
- `Conditional`: header text is Dafny's `string`; the white-space class holds no character that needs a surrogate pair. Making the current tag from a digest is left out.
- `CircuitBreaker`: threshold and cooldown stay as configured during a run; the retry loop, error mapping, payload checks and abort plumbing of a search appear only as the signals and the response at its end.
- `LogLimiter.HttpServerLogLimiter.Take`: an event's window is a value in the map; the source updates the window object in place.
- `Shutdown`: the report callbacks and the exit function are taken not to throw.
- `Answers`: the coordinator appears as any choice between a shared value, a load and a cancellation; its own rules are in `Coordinator` and `LeaseProtocol`.
- Filtering by title and source, metrics, tracing, logging and the resets meant for tests.
