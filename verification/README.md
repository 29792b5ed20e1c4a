# Verified model of the AI gateway's stateful protocols

The gateway limits, meters and forwards chat requests. This project models the parts of it that keep
state, and proves what holds over whole runs: the token-bucket rate limiter and its composite use, the
usage ledger with its dead-letter file and daily quota, the circuit breaker and the retrying client in
it, the chat handler that ties these together, the job queue, usage extraction from streams, the audit
stores, the input sanitizer, and the plugin chain.

Redis, the database, the upstream and the clocks are explicit state and arguments. Clocks are integer
milliseconds, and every lemma says what it assumes of them. Operations on Redis, the database and files happen
whole or not at all, and an operation that fails has no effect. Where the code changes state step by
step, the model is a class or a loop, proved equal to a specification function; the theorems are about
the specification functions, and say what these mean without naming them.

`dafny verify dfyconfig.toml` checks everything.

## Modules

| area | modules |
|---|---|
| rate limiting | `TokenBucket` (script and limiter), `BucketRuns` (admission bound), `EagerBucket` (refinement), `BucketExpiry` (TTL and inspection), `DeployedLimiter` (one store, all keys), `RetryTimes`, `Composite`, `CompositeRuns` |
| usage | `UsageLedger` (recording, recovery), `UsageConservation`, `RecoveryCredits` (recovery row by row), `UsageRaces` (statements interleaved), `RecoveryRaces` (recovery beside recordings), `Quota`, `ChatHandler` |
| upstream | `CircuitBreaker`, `BreakerRuns` (repaired, calls of atomic halves), `BreakerEpisodes` (how half-open ends), `BreakerThreads` (every atomic step), `BreakerSolo`, `BreakerRaces` (schedules), `BreakerLaws` (repaired, every schedule), `LLMClient` |
| jobs | `JobQueue`, `QueueRuns`, `QueueLabels` (both repaired) |
| text | `Text`, `StreamUsage`, `StreamCuts`, `Sanitizer`, `SanitizerPasses` |
| events and plugins | `Audit`, `PluginChain` |

## Where the code departs from its intent

The code is modelled as it is. Where a repair is needed to say something useful, it is a named variant
(`AsWritten`, `Repaired`), and the as-written behaviour is proved too.

- `middleware/circuitbreaker/circuit.go:161` compares the current state with the new one, so no
  transition happens: `BreakerThreads.NeverTripsFromStart`. With only that guard repaired, and every
  load, store and add a step of its own, only the four edges occur, but an opening may lack its ten
  outcomes or the failures among them exactly from two threads on (`BreakerLaws.OpeningsAreJustified`),
  and a probe may come before a failure has timed out exactly then, if there is a timeout to wait for
  (`BreakerLaws.TimeoutIsKept`). Some schedule opens the breaker exactly if the threshold is at most 100
  percent or there are two threads, and exactly then some schedule leaves it half-open and rejecting
  everything forever, whatever `HalfOpenMaxRequests` and the timeout are (`BreakerLaws.GetsStuck`). Two
  failing probes and then only successes are enough; `BreakerEpisodes.EpisodeLaw` says how every episode
  ends.
- `middleware/circuitbreaker/circuit.go:113-116` loads and adds in two steps, so concurrent callers
  can overrun the half-open maximum: `BreakerThreads.HalfOpenOverrun`, `BreakerLaws.OverrunIsReached`.
- `pkg/queue/queue.go:105` and `:114` push to and pop from different keys, no job record is stored,
  and `Fail` overwrites its error at line 143 and then calls it: `JobQueue.AsWrittenNeverDelivers`. A
  failed job is not pushed again (line 165). These four are the repair. RPUSH with BRPOP delivers the
  newest job first.
- `pkg/queue/queue.go:206` lets a running job's record expire with its timeout, while nothing stops the
  handler then (`internal/server/server.go:194` sets 30 seconds). This is not repaired: a handler that
  fails later finds no record, and its job is in no place at all (`QueueRuns.Vanishes`). On every run a
  job is in exactly one place if and only if that never happened to it (`QueueRuns.Lifecycle`).
- `internal/handler/helpers.go:156` reads one model's row instead of the day's sum. The check as written
  keeps the overshoot bound on every run of a day if and only if the day's requests are for one model:
  `Quota.AsWrittenNeedsOneModel`. It decides like the sum exactly while the day has at most one row:
  `Quota.FirstRowCheckIsTheSum`. The repaired check keeps the bound always: `Quota.OvershootBound`.
- `internal/handler/helpers.go:271-297` updates and then creates without a unique key
  (`internal/model/usage.go:10-22`). Every schedule of the statements of concurrent recordings is safe if
  and only if no two of them share a key without a row: `UsageRaces.SchedulesAreSafe`. Recovery only
  updates rows that exist for the day it runs on, so a dead letter of a model unused since midnight waits.
- `internal/handler/helpers.go:363` reads the dead-letter file and line 425 rewrites it, while recordings
  append to it. Usage is conserved if and only if no dead letter was appended in between:
  `RecoveryRaces.ConservedUnlessOverwritten`.
- `internal/handler/llm_client.go:264` drops bytes that arrive together with EOF, and
  `internal/handler/llm.go:194-195` puts a newline at every read boundary:
  `StreamUsage.ChunksAreTheBody`, `StreamCuts.CutsAreHarmless`.
- `internal/handler/llm_client.go:202` wraps the error that `internal/handler/llm.go:290` looks for by
  type assertion, so upstream client errors become 502: `LLMClient.ClientErrorsAreMasked`.
- `middleware/ratelimit/middleware.go:75-79` divides a duration by a second and then converts it to
  seconds: `RetryTimes.HeaderIsZero`.
- `middleware/ratelimit/composite.go:130`, `:150` and `:169` call the key functions without the request,
  so all clients share the IP and API key buckets: `CompositeRuns.DefaultsLimitTheWholeGateway`.
- `middleware/validation/validation.go:439-456` promises a sanitized string, yet a second pass may
  change it, exactly for inputs that hide a space: `SanitizerPasses.OnePassSettles`.
- `middleware/audit/audit.go:174-177` stops without reading the channel:
  `Audit.StopLosesTheChannel`.

## Model

| member | source | states |
|---|---|---|
| TokenBucket.TokenBucketRateLimiter.Check | middleware/ratelimit/token_bucket.go:51-134 | EVAL of the script leaves the specified hash and deadline and reports the specified result (whose numbers `RetryTimes` explains), without times where a rate of zero divides; a failed EVAL changes nothing |
| TokenBucket.TokenBucketRateLimiter.CheckWithConfig | middleware/ratelimit/token_bucket.go:137-147 | a check under another configuration acts on the same key and leaves this limiter's settings alone |
| TokenBucket.TokenBucketRateLimiter.Reset | middleware/ratelimit/token_bucket.go:150-152 | the key, and only it, is forgotten |
| TokenBucket.TokenBucketRateLimiter.GetTokens | middleware/ratelimit/token_bucket.go:155-193 | the level is refilled and stored without renewing the TTL; a missing key is 0 |
| TokenBucket.TokenBucketRateLimiter.SetPrefix | middleware/ratelimit/token_bucket.go:44-48 | sets the prefix only |
| BucketRuns.StepPotential | middleware/ratelimit/token_bucket.go:75-88 | tokens discounted by time never rise, and fall by one with every admission |
| BucketRuns.PacedBound | middleware/ratelimit/token_bucket.go:75-88 | from any check to any admitted check, in any bucket state, at most one capacity and the refill of the elapsed time are admitted |
| BucketRuns.WindowBound | middleware/ratelimit/token_bucket.go:75-88 | that bound for every window of every run under one configuration, with any clock, even one that runs backwards |
| BucketRuns.MixedWindowBound | middleware/ratelimit/token_bucket.go:137-147 | with a configuration per call, the largest capacity and the fastest rate bound every window under a monotone clock |
| DeployedLimiter.BurstIsAdmitted | middleware/ratelimit/token_bucket.go:69-85 | the bound is tight: a full bucket admits a burst of its whole capacity |
| EagerBucket.LazyRefinesEager | middleware/ratelimit/token_bucket.go:69-193 | one clamped refill per check or level query gives the same verdicts and levels as adding and clamping on every millisecond, for every schedule of checks and queries |
| BucketExpiry.CheckKeepsLink | middleware/ratelimit/token_bucket.go:69-89 | a check against a forgetting store and one against a store that never forgets agree and stay linked |
| BucketExpiry.InspectKeepsLink | middleware/ratelimit/token_bucket.go:156-177 | an inspection keeps the link although it rewrites the hash |
| BucketExpiry.ExpiryUnobservable | middleware/ratelimit/token_bucket.go:69-89 | expiry and inspections stay invisible to every run of checks if and only if a whole TTL refills the bucket |
| BucketExpiry.ShortTtlIsNoticed | middleware/ratelimit/token_bucket.go:89 | with a shorter TTL some run of checks tells the difference |
| DeployedLimiter.KeysAreIndependent | middleware/ratelimit/token_bucket.go:105-111 | answers for a key depend on the touches of that key alone |
| DeployedLimiter.DeployedBound | middleware/ratelimit/token_bucket.go:51-193 | the admission bound of a key in a store that expires keys, serves other keys and is inspected |
| DeployedLimiter.BoundNeedsTtl | middleware/ratelimit/token_bucket.go:87-89 | the store keeps that bound over every history if and only if a whole TTL refills the bucket; else two bursts a TTL apart break it |
| RetryTimes.RetryAfterIsExact | middleware/ratelimit/token_bucket.go:95-99 | after a denial a check succeeds exactly from retryAfter on |
| RetryTimes.ResetAtIsExact | middleware/ratelimit/token_bucket.go:91-93 | after a check the bucket is full exactly from resetAt on |
| RetryTimes.TruncatedRetry | middleware/ratelimit/token_bucket.go:119-124 | the retry time in whole milliseconds is enough exactly if nothing was cut off, and one more is always enough |
| RetryTimes.TruncatedReset | middleware/ratelimit/token_bucket.go:91-129 | with the reported reset time in whole milliseconds, the bucket the check left is full at no time before it and at every time after it, and at it exactly if it fills in a whole millisecond or was full at the clock's zero; the reported level is the stored one |
| RetryTimes.RemainingIsExact | middleware/ratelimit/token_bucket.go:120-129 | after a check exactly as many further ones are admitted at once as it reports to remain |
| RetryTimes.KeyOutlivesWindow | middleware/ratelimit/token_bucket.go:89 | a checked key is live for its window rounded up to whole seconds, and not longer |
| RetryTimes.HeaderIsZero | middleware/ratelimit/middleware.go:75-79 | the Retry-After header counts whole 10^9 seconds, so it is 0 for every shorter retry time and only then; the intended one is at least 1 |
| RetryTimes.RepairedHeaderExact | middleware/ratelimit/middleware.go:75-79 | waiting out the intended header is enough exactly below a second or for whole seconds |
| Composite.CompositeRateLimiter.constructor | middleware/ratelimit/composite.go:101-111 | three limiters over one client with one prefix |
| Composite.CompositeRateLimiter.Check | middleware/ratelimit/composite.go:121-194 | every dimension is charged; allowed if and only if no evaluated dimension denies; the reason is the last that did; errors count as allowed |
| Composite.CompositeRateLimiter.GetRateLimitStatus | middleware/ratelimit/composite.go:326-362 | reports level and limit of each dimension found with tokens, and always Allowed; changes the store like three inspections |
| Composite.StatusForesees | middleware/ratelimit/composite.go:332-358 | for a live key a status query reports exactly as many requests as would be admitted at once, and its limit exactly if the level is positive; a key without a bucket is reported like a used-up one |
| Composite.ChargedAlone | middleware/ratelimit/composite.go:128-185 | a dimension is charged and answers as if it were alone, whatever the others decide |
| Composite.ChargedInOrder | middleware/ratelimit/composite.go:128-185 | dimensions that share a key are charged one after another, IP first and tenant last, each on what the one before it left |
| Composite.OneSecondSuffices | middleware/ratelimit/composite.go:187-191 | with rates and capacities of at least 1 and levels that are not negative, a retry after one second is allowed, whichever dimensions the request has and whichever fail |
| Composite.DefaultKeysNeverCollide | middleware/ratelimit/composite.go:205-242 | default keys of different dimensions differ under any shared prefix |
| Composite.IPKeysTellClients | middleware/ratelimit/composite.go:205-211 | equal keys exactly for equal addresses; none shares the key of the address "unknown" |
| Composite.APIKeysTellClients | middleware/ratelimit/composite.go:214-223 | equal keys exactly for equal tokens, with or without "Bearer "; none shares the key of the token "none" |
| Composite.TenantKeysTellClients | middleware/ratelimit/composite.go:226-242 | equal keys exactly for equal tenants, the context's before the header's; none shares the key of the tenant "anonymous" |
| CompositeRuns.PinnedAnswers | middleware/ratelimit/composite.go:121-194 | over a whole run, a dimension with its own key answers, where it is evaluated, as Redis answers that key |
| CompositeRuns.CompositeBound | middleware/ratelimit/composite.go:121-194 | in every window overall admissions are at most the dimension's capacity and refill and the requests it has no key for or whose check fails, with key expiry and status queries |
| CompositeRuns.DefaultsLimitTheWholeGateway | middleware/ratelimit/composite.go:73-98 | with default options all clients together obey the IP bound of 500 and 100 a second and the API key bound of 1000 and 60 a second, but for failing checks |
| Text.FileReadsBack | internal/handler/helpers.go:371-424 | joining lines and splitting and trimming the text gives the lines back |
| Text.AppendReadsBack | internal/handler/helpers.go:345-351 | appending a record to a terminated file adds exactly its line |
| UsageLedger.UsageStore.RecordUsageWithRetry | internal/handler/helpers.go:261-322 | the three-attempt loop ends with the first attempt that succeeds, or with a dead letter |
| UsageLedger.UsageStore.RecordUsage | internal/handler/helpers.go:248-257 | a usage without total tokens is dropped, any other recorded |
| UsageLedger.UsageStore.WriteUsageDeadLetter | internal/handler/helpers.go:326-353 | one line is appended to the file, which is created if missing; a failing append changes nothing |
| UsageLedger.UsageStore.ProcessUsageDeadLetter | internal/handler/helpers.go:358-428 | each line is retried once, the rest written back, both counts returned; no file is no work and an unreadable one an error |
| UsageConservation.RecordingEnds | internal/handler/helpers.go:261-322 | a recording is one credit on the date of its first successful attempt, or one dead letter if no attempt succeeds |
| UsageConservation.DeadLetterIsAppended | internal/handler/helpers.go:345-351 | a dead letter is one more line behind those of the file, whether or not the file existed |
| UsageConservation.TotalUpdate | internal/handler/helpers.go:271-277 | an UPDATE adds its usage once per matching row and to nothing else |
| UsageConservation.CreditCountsOnce | internal/handler/helpers.go:271-305 | on a table with unique rows a recording counts once and keeps the rows unique |
| UsageConservation.RecordingConserves | internal/handler/helpers.go:261-353 | table and file together grow by exactly the usage, unless every attempt and the append fail |
| UsageConservation.RecoveryKeeps | internal/handler/helpers.go:371-418 | kept are, in order, exactly the lines that do not parse, whose UPDATE fails, or whose tenant and model have no row of the day in the table at the start; processed and remaining add up to the lines that are not blank |
| RecoveryCredits.UpdatedRows | internal/handler/helpers.go:402-409 | an UPDATE adds its usage to the rows of its tenant, date and model and leaves all others |
| RecoveryCredits.RowsGain | internal/handler/helpers.go:374-418 | recovery adds to each row exactly the usage of the lines of its tenant, day and model that parse and whose UPDATE does not fail, and adds no rows |
| RecoveryCredits.HealthyRecovery | internal/handler/helpers.go:374-427 | if no UPDATE fails and every line that parses has a row, exactly the lines that do not parse remain, in the count and in the rewritten file, and all others are processed |
| UsageConservation.RecoveryRoundTrip | internal/handler/helpers.go:420-425 | the next run reads back exactly the kept lines |
| UsageConservation.RecoveryConserves | internal/handler/helpers.go:358-428 | recovery keeps the balance, except that a failing rewrite counts the applied lines twice |
| UsageConservation.Account | internal/handler/helpers.go:248-428 | over any run of recordings and recoveries under any database and file failures, table and dead letters hold what was submitted, less the recordings lost, plus the lines whose removal failed; one row per tenant, date and model |
| UsageConservation.Conservation | internal/handler/helpers.go:248-428 | hence exactly what was submitted while the dead-letter file can be written and calls are serialized, whatever the database does |
| RecoveryRaces.OverwrittenIsLost | internal/handler/helpers.go:358-428 | with recordings between a recovery's read, its retries and its rewrite, what was submitted is held except the dead letters the rewrite removes unread |
| RecoveryRaces.ConservedUnlessOverwritten | internal/handler/helpers.go:363-425 | such a run conserves all usage if and only if no dead letter was appended between a read and its rewrite |
| RecoveryRaces.DeadLetterOverwritten | internal/handler/helpers.go:363-425 | a run that loses one |
| UsageRaces.AloneIsSerialized | internal/handler/helpers.go:271-305 | the two statements one after the other are the serialized recording |
| UsageRaces.RaceCountsTwice | internal/handler/helpers.go:271-297 | two recordings that both UPDATE before either INSERTs leave two rows, and every later usage of the key counts twice |
| UsageRaces.SchedulesAreSafe | internal/handler/helpers.go:261-322 | every schedule of any recordings' statements, under any database failures, counts each once and keeps one row for a key, if and only if no two share a key that has no row at the start |
| Quota.CheckQuota | internal/handler/helpers.go:147-188 | refuses on read errors, else passes exactly if the first row of the day plus the estimate is within the quota |
| Quota.PassesMeans | internal/handler/helpers.go:154-174 | the check as written passes exactly if the first row of the day, if there is one, leaves room for the estimate |
| Quota.StepBound | internal/handler/llm.go:112-119 | with the repaired check an admission raises a tenant's exposure by its request, to at most the bound, a failed call lowers it by its own, and recording, dead letters and recovery leave it |
| Quota.OvershootBound | internal/handler/llm.go:112-119 | repaired check, over every interleaving of admissions, recordings, failures and recoveries: used, pending and dead-lettered tokens stay within quota - estimate + requests * largest use + dead letters |
| Quota.OneModelRun | internal/handler/helpers.go:154-174 | on runs for one model the check as written and the repaired one admit the same requests |
| Quota.OneModelBound | internal/handler/helpers.go:147-188 | hence the bound for the check as written on those runs |
| Quota.SecondModelRun | internal/handler/helpers.go:154-174 | as written, a run with one token for one model and n requests for another is admitted whole, for every n |
| Quota.AsWrittenNeedsOneModel | internal/handler/helpers.go:147-188 | the check as written keeps the bound on every run of a day if and only if the day's requests are for one model |
| Quota.OvershootWithinQuota | internal/handler/helpers.go:147-188 | repaired check with estimates that cover the use: a fresh day exceeds the quota by at most the dead letters and one request's use fewer than are in flight |
| Quota.OvershootIsReached | internal/handler/llm.go:112-119 | simultaneous admissions reach the bound, with either check |
| Quota.FirstRowCheckIsTheSum | internal/handler/helpers.go:154-174 | for rows with tokens, the check as written decides like the day's sum for every quota and estimate if and only if the day has at most one row |
| Quota.OneModelIsChecked | internal/handler/helpers.go:154-174 | that is so for a tenant with one model a day |
| Quota.SecondModelIsUnchecked | internal/handler/helpers.go:154-174 | with a second model the day's total grows without bound while the check sees the same first row |
| ChatHandler.LLMHandler.ChatCompletion | internal/handler/llm.go:112-136 | check, call and record in this order, streaming or not: a refusal is a 403 with nothing sent, a failed call records nothing |
| ChatHandler.LLMHandler.NonStreamChat | internal/handler/llm.go:246-318 | the answer's usage is recorded; any failure of the client is a 502 |
| ChatHandler.LLMHandler.StreamChat | internal/handler/llm.go:139-243 | one breaker call; the usage found in the buffered chunks, or else the estimate, is recorded |
| ChatHandler.AnswersAreBilled | internal/handler/llm.go:112-317 | over any run of requests the balance grows by exactly what the answers tell, for the request's tenant and model: a plain answer its usage, a stream the usage of its last usage line or else the estimate; less recordings whose attempts and append all fail |
| ChatHandler.RecordedAsTold | internal/handler/llm.go:212-231 | one usage is told by an answer, and that is the one recorded |
| ChatHandler.VerdictsMean | internal/handler/llm.go:112-317 | 403 and no change exactly if the first row leaves no room or cannot be read; past quota and breaker, answered exactly if the context lives and the last reply is a 200 that parses, or the stream is read to its end; the breaker then has one outcome, a success exactly for an answer; a plain failure is a 502, a stream always a 200 |
| ChatHandler.CallsAreCounted | internal/handler/llm.go:112-136 | with either breaker in any state, each request past the quota check and the breaker is one breaker call and at most maxRetries upstream requests; any other is neither |
| ChatHandler.EveryCallHasAnOutcome | internal/handler/llm.go:112-136 | as written nobody is rejected, and each call is one failure or one success |
| CircuitBreaker.CircuitBreaker.TransitionTo | middleware/circuitbreaker/circuit.go:155-180 | moves exactly if the variant's guard allows it, resetting the counters that belong to the new state |
| CircuitBreaker.AsWrittenNothingMoves | middleware/circuitbreaker/circuit.go:155-180 | as written no transition changes the state; all one can do is clear the counters of an open breaker |
| CircuitBreaker.CircuitBreaker.AllowRequest | middleware/circuitbreaker/circuit.go:96-121 | the admission decision in each state and its effect; the probe is not counted |
| CircuitBreaker.CircuitBreaker.RecordFailure | middleware/circuitbreaker/circuit.go:124-139 | counts a failure and opens from ten samples at the threshold |
| CircuitBreaker.CircuitBreaker.RecordSuccess | middleware/circuitbreaker/circuit.go:142-152 | counts a success and closes a half-open breaker with enough of them |
| CircuitBreaker.CircuitBreaker.Call | middleware/circuitbreaker/circuit.go:69-93 | a rejected call has no outcome, an admitted one exactly one; an ended context is a failure |
| BreakerRuns.StartIsSafe | middleware/circuitbreaker/circuit.go:59-66 | a new breaker satisfies the invariant of the runs |
| BreakerRuns.StepIsSafe | middleware/circuitbreaker/circuit.go:69-180 | where admission and outcome are atomic, every step of the repaired breaker keeps the invariant and is safe |
| BreakerRuns.EveryRunIsSafe | middleware/circuitbreaker/circuit.go:69-180 | over all runs of overlapping calls with atomic admissions and outcomes: only the four edges, opening only after ten outcomes with enough failures, no admission while open before the timeout of every failure, at most one more admission than configured in a half-open episode |
| BreakerRuns.StuckForever | middleware/circuitbreaker/circuit.go:111-117 | a quiet half-open breaker rejects everything forever if and only if its admissions are used up |
| BreakerRuns.OpenEnds | middleware/circuitbreaker/circuit.go:102-109 | an open breaker lets through whoever asks first from some time on, and nobody before |
| BreakerEpisodes.EpisodeLaw | middleware/circuitbreaker/circuit.go:102-152 | for every sequence of probes after an opening: closed if and only if one of the first two succeeds; else open if and only if a later failure completes a sample with enough failures; else half-open with its admissions used up |
| BreakerEpisodes.FailedProbesStick | middleware/circuitbreaker/circuit.go:128-138 | hence probes that all fail reopen exactly if HalfOpenMaxRequests is above 8 |
| BreakerEpisodes.LateSuccessesStick | middleware/circuitbreaker/circuit.go:145-150 | and two failures followed by successes stick for every HalfOpenMaxRequests |
| BreakerEpisodes.AtomicCallsStick | middleware/circuitbreaker/circuit.go:69-180 | with atomic admissions and outcomes some run ends half-open and admits nothing ever again if and only if the threshold is at most 100 percent |
| BreakerThreads.HalfOpenOverrun | middleware/circuitbreaker/circuit.go:111-117 | with any number of threads and any schedule of atomic steps the half-open counter stays below the maximum plus the threads |
| BreakerSolo.AloneIsAtomic | middleware/circuitbreaker/circuit.go:69-180 | a thread left alone performs a call as the coarse model's one step |
| BreakerLaws.OnlyTheEdges | middleware/circuitbreaker/circuit.go:155-180 | on every schedule of atomic steps only the four edges occur |
| BreakerLaws.SeenCounts | middleware/circuitbreaker/circuit.go:124-152 | on every schedule the counters are the outcomes since the last opening |
| BreakerLaws.OpeningsAreJustified | middleware/circuitbreaker/circuit.go:124-139 | every opening comes with ten outcomes since the last one and enough failures, if and only if there is at most one thread, for every configuration |
| BreakerLaws.StaleOpening | middleware/circuitbreaker/circuit.go:136-138 | a schedule that brings a second thread's late transition to a half-open breaker without any outcome |
| BreakerLaws.SomeScheduleOpens | middleware/circuitbreaker/circuit.go:129-138 | some schedule opens the breaker if and only if the threshold is at most 100 percent and there is a thread, or there are two |
| BreakerLaws.GetsStuck | middleware/circuitbreaker/circuit.go:69-180 | and exactly then some schedule ends half-open with all threads idle, and none is admitted on any schedule after |
| BreakerLaws.TimeoutIsKept | middleware/circuitbreaker/circuit.go:102-109 | every probe comes after all stored failures have timed out, if and only if there is at most one thread or the timeout is negative |
| BreakerLaws.OverrunIsReached | middleware/circuitbreaker/circuit.go:111-117 | some schedule from a new repaired breaker reaches the overrun bound if and only if the breaker can trip, for every maximum of at least 1 |
| BreakerThreads.StepStaysClosed | middleware/circuitbreaker/circuit.go:155-163 | as written, each atomic step leaves the breaker closed and its counters no smaller, and admits whoever asks |
| BreakerThreads.NeverTrips | middleware/circuitbreaker/circuit.go:69-180 | as written, under every schedule the breaker stays closed, its counters never fall and every counted call is a failure, a success or still running |
| BreakerThreads.NeverTripsFromStart | middleware/circuitbreaker/circuit.go:59-180 | so it does from a new breaker, with any number of threads |
| LLMClient.LLMClient.constructor | internal/handler/llm_client.go:64-78 | at least one attempt |
| LLMClient.LLMClient.SendOnce | internal/handler/llm_client.go:166-195 | one request is retried exactly if its outcome is retryable and an attempt is left, else it is the verdict (`LoopAnswers` says which) |
| LLMClient.LLMClient.SendWithRetries | internal/handler/llm_client.go:134-198 | the loop sends, waits and ends as specified |
| LLMClient.LLMClient.ChatCompletion | internal/handler/llm_client.go:128-206 | one breaker call with one outcome whatever the number of requests |
| LLMClient.FirstVerdict | internal/handler/llm_client.go:134-198 | the result is that of the first attempt that is not retryable, or of the last one |
| LLMClient.CancelledVerdict | internal/handler/llm_client.go:138-142 | a context that ends during a wait ends the loop before the next request |
| LLMClient.LoopEnds | internal/handler/llm_client.go:134-198 | at most maxRetries requests; only retryable outcomes are followed by a request; these two verdicts are all |
| LLMClient.LoopAnswers | internal/handler/llm_client.go:134-198 | a request is followed by another exactly if it came to a 5xx or to a network error that mentions a timeout, a connection or EOF, an attempt is left and the wait is not cancelled; the verdict is success exactly if the last reply was a 200 that parses, and each error exactly for its own kind of reply |
| LLMClient.PrefixAddsNothing | internal/handler/llm_client.go:288-298 | the client's own words in the error never make it transient |
| LLMClient.NoRequestAfterClientError | internal/handler/llm_client.go:180-182 | a 4xx is the last request and the verdict |
| LLMClient.BackoffIsExact | internal/handler/llm_client.go:137 | the int64 wait is the intended one if and only if the attempt is at most 37 |
| LLMClient.FullBackoff | internal/handler/llm_client.go:134-143 | n attempts wait 100 * (2^(n-1) - 1) ms in all, up to 38 attempts |
| LLMClient.LateWaits | internal/handler/llm_client.go:137 | the wait before attempt 38 and every one from attempt 57 on is none at all |
| LLMClient.ClientErrorsAreMasked | internal/handler/llm.go:286-296 | the answer differs from the intended status if and only if the verdict is an upstream 4xx |
| JobQueue.TaskQueue.EnqueueJob | pkg/queue/queue.go:84-106 | stamps the job with id, status, time, queue, retries and timeout and pushes it; repaired, its record is stored |
| JobQueue.TaskQueue.DequeueJob | pkg/queue/queue.go:109-126 | takes the newest job of the key it pops, or nothing |
| JobQueue.TaskQueue.GetJob | pkg/queue/queue.go:169-185 | the record under the key, unless it has expired |
| JobQueue.TaskQueue.StartJob | pkg/queue/queue.go:188-207 | a stored job becomes running and expires with its timeout, a missing one is reported |
| JobQueue.TaskQueue.FailJob | pkg/queue/queue.go:138-166 | repaired: one more retry, then dead or pushed again; as written a panic; for a record that is missing or expired, an error and no change |
| JobQueue.TaskQueue.CompleteJob | pkg/queue/queue.go:129-135 | the record is deleted |
| JobQueue.UnfoundChangesNothing | pkg/queue/queue.go:138-207 | Start and Fail report a job whose record is missing or has expired, and change nothing; as written Fail panics for any other and never changes anything |
| JobQueue.JobKeyIsInjective | pkg/queue/queue.go:309-311 | job keys coincide exactly for the same id and queue, as ids have no colon |
| JobQueue.ColonsCollide | pkg/queue/queue.go:309-311 | an id with a colon would share its key with another id in another queue |
| JobQueue.AsWrittenNeverDelivers | pkg/queue/queue.go:104-114 | as written workers receive no job after any calls, unless the default queue's name itself starts with the prefix; Start and Fail never find one |
| QueueRuns.Lifecycle | pkg/queue/queue.go:84-290 | on every run a submitted id is in exactly one of pending, with a worker, completed and dead if and only if no handler of it failed after its record had expired, else in none; its handler has run at most max(1, MaxRetries - Retries) times, for the MaxRetries submitted or, for 0, the default |
| QueueRuns.Vanishes | pkg/queue/queue.go:284-285 | in every reachable state a failure after the expiry leaves the job in no place |
| QueueRuns.AnyJobVanishes | pkg/queue/queue.go:188-207 | every job with a timeout can get lost so, three steps after its submission |
| QueueRuns.FailingJobDiesOnce | pkg/queue/queue.go:153-157 | a job that never succeeds is dead-lettered exactly once when it is no longer pending or held, if and only if it never failed late |
| QueueRuns.StepWorks | pkg/queue/queue.go:260-290 | each step but a submission uses up work |
| QueueRuns.RunsDry | pkg/queue/queue.go:260-290 | without submissions a run is no longer than the work there was |
| QueueLabels.NewestComesFirst | pkg/queue/queue.go:84-126 | a submitted job is delivered next and the lists are as before; its type, retries, error and times are those submitted, its maximum of retries and timeout too or, for 0, the defaults, and it was created at the submission |
| QueueLabels.StatusesTell | pkg/queue/queue.go:84-207 | in every reachable state waiting jobs equal their records, which do not expire, handled ones have Running records that expire with the timeout, dead ones failed exactly as often as the submitted job was to have attempts, completed ones have no record; and all have the type, limits and creation time of their submission |
| QueueLabels.FailureTells | pkg/queue/queue.go:147-157 | a failure in time leaves a job, dead or pending, with one more retry, the error, the time, and when its handler started |
| StreamUsage.StreamChunks | internal/handler/llm_client.go:260-275 | the reused buffer hands over the data of every read before the first error, and the stream buffer holds it line by line |
| StreamUsage.ChunksAreTheBody | internal/handler/llm_client.go:262-275 | the chunks make up the body if and only if it ends with an empty read |
| StreamUsage.ExtractUsage | internal/handler/helpers.go:196-235 | the scan from the end finds the last qualifying line of a forward scan |
| StreamUsage.LastQualifyingMeans | internal/handler/helpers.go:201-234 | that is the usage of the last line whose text behind its first "data: ", or whole text without one, has ten characters, no "[DONE]", and a usage with tokens; none exactly if no line tells one |
| StreamUsage.CompletesMeans | internal/handler/llm_client.go:261-269 | a stream succeeds exactly if no read breaks off before one reaches the end |
| StreamCuts.AlignedChunksKeepLines | internal/handler/llm.go:193-195 | newline-joined chunks that end at line ends have the lines of the body |
| StreamCuts.UsageIndependentOfChunking | internal/handler/llm.go:183-212 | for every chunking whose cuts are harmless the extracted usage is that of the body |
| StreamCuts.CutsAreHarmless | internal/handler/llm.go:193-195 | for any number of chunks cut anywhere, the newline after each keeps the lines of the body if and only if at every cut the rest of its line is blank on one side |
| Sanitizer.SanitizedIsClean | middleware/validation/validation.go:439-456 | the result has none of the characters < > " ', no tab or line break, and respects a positive limit |
| Sanitizer.TextIsKept | middleware/validation/validation.go:439-456 | all other text stays in order, and the limit cuts only the finished result |
| Sanitizer.TwoPassesSettle | middleware/validation/validation.go:439-456 | a third pass changes nothing, for every string |
| SanitizerPasses.NormalMeans | middleware/validation/validation.go:443-448 | collapsing and removing leave no space at an edge and no two together exactly if no dangerous characters hide a space |
| SanitizerPasses.OnePassSettles | middleware/validation/validation.go:439-456 | a second pass changes nothing if and only if the part of the trimmed input that the limit lets through has no dangerous characters at an edge next to a space or between two, and no space at its end |
| Sanitizer.OnePassIsNotEnough | middleware/validation/validation.go:439-456 | a family of inputs that need the second pass |
| Sanitizer.Validator.SanitizeInput | middleware/validation/validation.go:413-436 | the result is one that some map iteration order gives; without sanitization the input itself |
| Sanitizer.OutputIsClean | middleware/validation/validation.go:413-436 | so is every string and key of every possible result |
| Sanitizer.OutputKeys | middleware/validation/validation.go:427-432 | the output keys are exactly the sanitized input keys |
| Sanitizer.ThirdPassIsIdle | middleware/validation/validation.go:413-436 | three passes over a tree equal two, whatever the iteration orders |
| Audit.FileAuditStore.WriteLoop | middleware/audit/audit.go:130-181 | on any schedule of senders, ticks and Close the loop reaches the specified state |
| Audit.NothingVanishes | middleware/audit/audit.go:130-192 | batches, buffer and channel hold the accepted events in order, whatever the disk does |
| Audit.StopLosesTheChannel | middleware/audit/audit.go:174-177 | on a reliable disk the file after Close has everything accepted if and only if the channel was empty |
| Audit.EveryLossHappens | middleware/audit/audit.go:174-177 | every loss up to a full channel occurs |
| Audit.TickTells | middleware/audit/audit.go:137-161 | a write that cannot start leaves the buffer, one that breaks off loses it, any other brings it into the file |
| Audit.OnlyBrokenWritesLose | middleware/audit/audit.go:130-181 | on every run without a write that breaks off, file, buffer and channel hold everything accepted, and the file is complete exactly if the others are empty |
| Audit.BatchesAreFull | middleware/audit/audit.go:167-173 | between ticks a working disk is written to once for every full buffer |
| Audit.InMemoryAuditStore.Save | middleware/audit/audit.go:230-239 | appends and keeps the newest maxEvents |
| Audit.InMemoryAuditStore.BatchSave | middleware/audit/audit.go:242-249 | saving one by one keeps the newest maxEvents of all |
| Audit.InMemoryAuditStore.GetEventsByAction | middleware/audit/audit.go:266-277 | the oldest matches in order, as many as a positive limit allows |
| Audit.MatchesInOrder | middleware/audit/audit.go:266-277 | the matches are exactly the events with the action, in order |
| Audit.RemembersTheNewest | middleware/audit/audit.go:230-287 | after any calls the store holds exactly the newest maxEvents events since the last Clear |
| PluginChain.Chain.ExecuteOnRequest | wasm/types.go:131-162 | result and final input are those of the hooks that run, which may change the input they get |
| PluginChain.Chain.ExecuteOnResponse | wasm/types.go:165-187 | the chain's visible result |
| PluginChain.Chain.ExecuteOnError | wasm/types.go:190-207 | the first hook that answers decides, each seeing the input the ones before it left |
| PluginChain.ErrorChainsCompose | wasm/types.go:190-207 | P and Q together answer as P, or as Q on what P left if P is silent |
| PluginChain.ErrorPath | wasm/types.go:190-207 | the answer, output or error, is that of the first hook that is not silent, on the input that those before it left |
| PluginChain.ResponseChainsCompose | wasm/types.go:165-187 | running P and Q together is running P and then Q on its result unless P halted or failed |
| PluginChain.ResponsePath | wasm/types.go:165-187 | the result is the last of the responses that the hooks hand on one to the next, or what the hook answers that halts or fails |
| PluginChain.FlagTellsHalting | wasm/types.go:165-187 | the Continue flag of the result tells halting for every chain of plugins that keep it if and only if the response came in with the flag set |
| PluginChain.RequestChainsCompose | wasm/types.go:131-162 | the same on the request side, with Q seeing the input that P left |
| PluginChain.RequestPath | wasm/types.go:131-162 | each hook sees what the one before it left, with its metadata in the Context; the result is the answer of the last hook that ran |
| PluginChain.NothingRunsAfterAStop | wasm/types.go:144-152 | no hook runs after the first halt or error |
| PluginChain.ContextByKey | wasm/types.go:153-161 | with hooks that leave Context alone, each key has the value of the last continuing output that carries it, or its initial one |
| PluginChain.TrailingNilHidesOutput | wasm/types.go:144-162 | a last hook that answers nil hides the outputs before it |

## Left out

- Floating-point rounding in the script, and the conversion of Lua replies to Go numbers: the script's arithmetic is exact real arithmetic.
- The reset and retry times of a rate of zero, which divide by zero in the script.
- int64 overflow of token counts, counters and clocks; only the backoff shift is modelled with wrap-around.
- Redis, GORM, Hertz, HTTP, metrics and logging beyond the state they keep; a nil database, Redis client or circuit.
- JSON: records are rendered and parsed by an arbitrary codec that reads back what it rendered; jobs, audit events and plugin data are values.
- Lengths of strings are counted in characters, where the code counts bytes.
- `getQuotaStatus`, quota response headers, rate limit response headers other than Retry-After, and the middleware around the limiters.
- The tokenizer behind the streaming handler's fallback estimate (its two estimators call each other without end; the estimate is an argument), and the forwarding of chunks to the caller.
- The goroutine that records usage: recordings and recoveries are serialized, except in `UsageRaces`, where a recording keeps the date of its first attempt, and in `RecoveryRaces`, where one recovery runs at a time and file operations succeed.
- BreakerRuns.EveryRunIsSafe: admission, counting and outcome are atomic steps; `BreakerLaws` has the laws of every schedule.
- BreakerThreads.HalfOpenOverrun: `transitionTo` is one step here and in `BreakerLaws`; in Go its stores become visible to others one by one.
- BreakerEpisodes.EpisodeLaw: stated for probes that run one after another.
- Quota.FirstRowCheckIsTheSum: for rows with positive totals, which recordings of usages with tokens make.
- Quota.AsWrittenNeedsOneModel: for settings with room for a token besides an estimate, and requests that use some.
- CircuitBreaker.CircuitBreaker.Call: lastResetTime is written but never read, and is not modelled; the context outcome and the result of `fn` are arguments.
- QueueRuns.Lifecycle: workers and Redis share one clock; jobs of queues no worker polls stay pending and are not modelled.
- Job payload and metadata, PubSub and Publish.
- DeployedLimiter.DeployedBound: for clocks that do not run backwards and do not fall behind the server's.
- CompositeRuns.CompositeBound: the prefix is fixed during a run, Reset is not part of it, and request times do not run backwards.
- PluginChain.Chain.ExecuteOnRequest: a plugin's hooks are functions of what they are given.
- Audit.InMemoryAuditStore.BatchSave: requires a store within its limit, which every call keeps; slices returned before Clear share memory with later events in Go and are values here.
- GetEvents by time range, redaction, and the database store of the audit module, and schema validation: they would only add easy members.
- WASM loading, authentication, key generation, configuration, tracing, and server wiring.
