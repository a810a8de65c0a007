# Verification of the AI gateway's shared-state core

The gateway forwards chat requests to Groq or Gemini. What makes it hard to get right is the state that
many concurrent requests share: a Redis sorted set per API key (rate limit), a Redis value, lock and
channel per cache key (stampede protection), a circuit breaker per provider, a materialised spend view
with a 60-second cache in front of it. This project models that state step by step and proves what holds
over every run, and, where a promise does not hold in general, the exact condition under which it does.
Three transformation cores are treated as pure data: the canonical cache key, the two provider message
encodings with the SSE relay, and the semantic embedding.

`dafny verify dfyconfig.toml` checks everything.

| file | what it models |
|---|---|
| `Models.dfy` | request, response, message, and how a Redis round trip may end |
| `RateLimit.dfy` | the sliding-window limiter as a class and as a run of commit-order events |
| `Breaker.dfy` | the circuit breaker, methods atomic, as a class and as runs of timed calls |
| `BreakerAtomic.dfy` | the same breaker at the granularity of single atomic operations, any number of threads |
| `Gateway.dfy` | the request path and the lock protocol as one interleaved state machine |
| `Messages.dfy` | what a waiting request hears on its channel through any run of that machine |
| `Failover.dfy` | conservation of calls, provider order, 503, and each breaker's own history in that machine |
| `Crosstalk.dfy` | where every cached, published or handed-out response comes from |
| `Stampede.dfy`, `CachedValue.dfy` | what the lock and a cached value keep, in which environments |
| `Overlap.dfy` | the exact environments for four promises, with the runs that break them elsewhere |
| `Cache.dfy`, `Handler.dfy` | the cache client and `ServeHTTP` as classes over one request |
| `Charges.dfy` | the log goroutines and the log table beside the machine: what the log charges against what providers were paid |
| `HandlerRuns.dfy`, `ServeRuns.dfy` | the proof that such a call, from arrival to its row in the log, is a run of the machine |
| `CacheKey.dfy` | the JSON encoding behind the cache key, with a decoder |
| `Vectors.dfy`, `Semantic.dfy` | tokeniser, hashed embedding, cosine threshold |
| `Encodings.dfy`, `SseRelay.dfy` | the message lists of the two providers, and the streaming relay |
| `Spend.dfy`, `Budget.dfy` | the spend log with its view, and the cached budget check |

Redis replies, clock readings, provider results, digests, number formatting, Unicode tables and the square
root are parameters. Times in the gateway and breaker are nanoseconds, elsewhere milliseconds.

## What turned out to be conditional

- The window bound, and the equality with a full-history limiter, hold in every run exactly when a request's
  timestamp lags its commit by at most 1001 ms and (for the bound) commit order follows timestamp order: the
  2 s TTL drops a key before a request delayed for longer is counted. A key is read as Redis keeps it, until its
  clock has passed the expiry; were it dropped at the millisecond of the expiry, the bound would be 1000 ms.
- What the lock of a key promises depends on what can happen around it, and each promise has its exact
  condition over all runs, for every key function that tells requests apart as the real one does:
  - at most one holder: the lock does not expire, and either nothing but the holder deletes it, and only once (no
    error makes an owner, no failover from another key calls and deletes, no delete is sent again while a copy of it
    may still be executed), or nobody comes for it once the key was cached;
  - at most one call made with the key under way: the lock does not expire, no error makes an owner, neither
    failover from another key nor a stream calls with the key (both call without looking at its lock or its cached
    value), and deletes are not sent again where somebody may come for the lock of a key that was cached;
  - no call with the key while it is cached: the lock does not expire, no error makes an owner, neither failover from
    another key nor a stream calls with the key, no value is set while a request that missed it stands before the
    lock, no read of the cached value fails, and where the value may be evicted no delete is sent again and no SET is
    executed that its client has given up;
  - one calling request per key: the same without resent deletes and late SETs, which do no harm here, but no
    eviction.

  A copy of any command may be left on a closed connection and executed at any later time; a delete that is only
  late, and not sent again, breaks none of these promises.
- Section 2 of the repository's README says an owner that fails must release the lock and wake the waiting
  requests. The 503 path does neither, nor does a successful failover for the own key, and the model follows
  the code.
- A comment in the breaker speaks of one probe in HALF-OPEN. The code lets every caller through, and HALF-OPEN
  cannot be told from CLOSED with the same counter.
- `RecordSuccess` can erase an opening between its load and its stores, at every threshold, and only then: no
  run goes from OPEN to CLOSED if no opening is stored while a success is under way.
- `GetDailySpend` sends two statements without a transaction. Its answer can drop within a day exactly when a view
  query fails (the fallback is the direct sum, which a lagging row is below), a refresh becomes visible between the
  two statements of one call, or a cost is logged while the view is being refreshed. The repository creates the view
  and never refreshes it; refreshes are whatever a deployment runs.
- The log is not what was paid. A cached answer keeps the price of its call and is logged with it; a finished stream
  is logged at price 0, because the usage it is priced by is never filled in; a failed insert is lost, and so is every
  row of the mock provider, which is always configured and which the CHECK constraint of the table refuses. In every
  run the log charges a key what was paid plus what was charged again less what was lost or not metered, and it is
  exact in all runs exactly when no cached answer has a price, streams cost nothing, no insert of a priced row fails
  and none is refused. A call that ends in an error is taken as free.
- The Gemini encoding keeps the conversation exactly of requests that do not use the role "model" themselves,
  and it drops `max_tokens` and `temperature`, which nevertheless separate cache keys.
- A connection that breaks inside a data line makes the relay emit a torn event.
- The budget check lags by its 60-second cache (read as Redis keeps it, through the millisecond of the expiry) plus
  the delay between asking the database and storing the answer. If costs are logged during a refresh it lags without
  any bound but the end of the day.

## Model

| member | source | states |
|---|---|---|
| `RateLimit.RateLimiter.ZRemRangeByScore` | internal/middleware/ratelimit.go:34-35 | eviction removes exactly the entries with a score in the range |
| `RateLimit.RateLimiter.ZAdd` | internal/middleware/ratelimit.go:40-41 | the entry is added under its timestamp, all others stay |
| `RateLimit.RateLimiter.ZRem` | internal/middleware/ratelimit.go:53-57 | exactly the rejected entry is removed |
| `RateLimit.RateLimiter.Expire` | internal/middleware/ratelimit.go:43-44 | the key lives two seconds from the commit |
| `RateLimit.RateLimiter.Allow` | internal/middleware/ratelimit.go:23-71 | decision, advertised remainder, error and the whole new sorted set, for every way the two round trips can end |
| `RateLimit.CountCoversWindow` | internal/middleware/ratelimit.go:34-38 | the count taken by a pipeline covers every admitted request of the window, despite evictions, phantom entries and key expiry |
| `RateLimit.RunKeepsInvariant` | internal/middleware/ratelimit.go:23-71 | every run with bounded lag and ordered commits keeps at most max(limit, 0) admissions in every window |
| `RateLimit.LateCommitBreaksBound` | internal/middleware/ratelimit.go:43-50 | with a lag above 1001 ms a run exceeds the limit |
| `RateLimit.ReorderedCommitBreaksBound` | internal/middleware/ratelimit.go:25-41 | with commits out of timestamp order a run exceeds the limit |
| `RateLimit.WindowBoundExact` | internal/middleware/ratelimit.go:23-71 | the bound holds over all runs if and only if the lag is at most 1001 ms and commit order agrees with timestamp order |
| `RateLimit.RemainingNeverOverstates` | internal/middleware/ratelimit.go:61-68 | in interleaved runs the advertised remainder plus the admissions of the window never exceed the limit |
| `RateLimit.RemainingExact` | internal/middleware/ratelimit.go:61-68 | in any run the remainder advertised with an admission is what the entries now in the set leave of the limit, less one for a resent pipeline whose first copy still counts |
| `RateLimit.RemainingIsAdmitted` | internal/middleware/ratelimit.go:46-68 | of any further requests with the timestamp of an admission, exactly as many are admitted as its remainder says |
| `RateLimit.CallsAgree` | internal/middleware/ratelimit.go:25-68 | call by call the evicting, expiring set decides and advertises like a limiter that remembers everything and subtracts the window, the new admission included, from the limit |
| `RateLimit.RefinementExact` | internal/middleware/ratelimit.go:25-68 | the full-history limiter is refined, decision and remainder, if and only if requests lag their commit by at most 1001 ms |
| `RateLimit.BurstRun` | internal/middleware/ratelimit.go:32-70 | within one window, in any commit order and with removals at any time, admissions fill the limit before anything is rejected |
| `RateLimit.BurstExact` | internal/middleware/chain_test.go:199-204 | N concurrent requests on an empty key get exactly min(N, limit) admissions in every run, if and only if the lag is at most 1001 ms |
| `Breaker.CircuitBreaker.constructor` | internal/proxy/breaker.go:19-31 | a new breaker is CLOSED with counter 0; zero settings become 5 failures and 30 s |
| `Breaker.CircuitBreaker.Allow` | internal/proxy/breaker.go:33-51 | true unless OPEN and younger than the timeout; the first true from OPEN moves to HALF-OPEN |
| `Breaker.CircuitBreaker.RecordSuccess` | internal/proxy/breaker.go:53-59 | resets to CLOSED with counter 0 unless OPEN |
| `Breaker.CircuitBreaker.RecordFailure` | internal/proxy/breaker.go:61-71 | counts in 32 bits, and at the threshold stamps the time and opens |
| `Breaker.Int32IsTruncation` | internal/proxy/breaker.go:62-63 | counter and threshold are compared as the int32 with the same low bits |
| `Breaker.CounterIsStreak` | internal/proxy/breaker.go:53-71 | over every trace the counter is the truncated number of failures since the last success made while not OPEN |
| `Breaker.ModeFollowsStreak` | internal/proxy/breaker.go:33-71 | over every trace the breaker is away from CLOSED exactly when that number has reached the threshold |
| `Breaker.CounterDecidesMode` | internal/proxy/breaker.go:61-71 | short of an overflow the counter alone decides whether the breaker is CLOSED |
| `Breaker.ModeTracksStreakExact` | internal/proxy/breaker.go:61-71 | this holds over every trace if and only if the threshold is positive as an int32 |
| `Breaker.OpenExactly` | internal/proxy/breaker.go:33-71 | over every trace the breaker is OPEN exactly when some failure has reached the threshold and no Allow has come a timeout after the last that did, whose time is the recorded one |
| `Breaker.AllowAnswersExactly` | internal/proxy/breaker.go:33-51 | over every trace an OPEN breaker lets a call through, and is HALF-OPEN afterwards, if and only if the timeout has passed since the last failure that opened it; otherwise it stays OPEN, and any other breaker lets every call through unchanged |
| `Breaker.FailedProbeReopens` | internal/proxy/breaker.go:47-71 | one failed call in a reachable HALF-OPEN state reopens, unless the counter overflows |
| `Breaker.ProbesAreSpaced` | internal/proxy/breaker.go:33-71 | under a monotone clock any two OPEN to HALF-OPEN transitions are a timeout apart |
| `Breaker.ProbeRate` | internal/proxy/breaker.go:33-71 | an interval of length L holds at most floor(L / timeout) + 1 of them |
| `Breaker.HalfOpenBehavesLikeClosed` | internal/proxy/breaker.go:33-71 | no future sequence of calls distinguishes HALF-OPEN from CLOSED with equal counter and failure time |
| `Breaker.HalfOpenAdmitsEveryCaller` | internal/proxy/breaker.go:47-48 | every caller passes a HALF-OPEN breaker until a result is recorded |
| `BreakerAtomic.RunKeepsInvariants` | internal/proxy/breaker.go:33-71 | mutex, timestamp and per-thread invariants hold after every run of single atomic operations |
| `BreakerAtomic.FreeMutexMeansFreshStamp` | internal/proxy/breaker.go:61-71 | whenever the mutex is free and the state OPEN, the recorded failure time is that of the latest opening |
| `BreakerAtomic.GrantWaitsForTimeout` | internal/proxy/breaker.go:38-46 | an Allow that read OPEN returns true only a timeout after every opening before it, without re-reading the state |
| `BreakerAtomic.ComparesExactly` | internal/proxy/breaker.go:38-46 | in every run an Allow that found OPEN decides by the time since the latest opening |
| `BreakerAtomic.DueAllowIsGranted` | internal/proxy/breaker.go:38-46 | one that compares a timeout or more after the latest opening is granted and stores HALF-OPEN by its next operation, whatever other threads do in between |
| `BreakerAtomic.SuccessErasesOpening` | internal/proxy/breaker.go:53-71 | for every threshold there is a run in which a success stores over an opening, leaving CLOSED with every thread done |
| `BreakerAtomic.OpeningsSurviveExact` | internal/proxy/breaker.go:53-71 | for every threshold, no step of any run goes from OPEN to CLOSED if and only if no opening is stored while a success is between its load and its last store |
| `BreakerAtomic.AtomicOpeningsSurvive` | internal/proxy/breaker.go:33-71 | with the methods as atomic steps a run that has been OPEN and no longer is contains an Allow that found it OPEN for a timeout |
| `Failover.KeptRun` | internal/proxy/handler.go:60-241 | in every interleaving each request keeps the shape of its program point and its answer stands for the recorded provider call |
| `Failover.ProvidersCalledOnce` | internal/proxy/handler.go:158-213 | a request calls at most its own provider and then that provider's fallback, configured ones only and none twice |
| `Failover.UnavailableExactly` | internal/proxy/handler.go:193-213 | past the cache a plain request ends with 503 if and only if no provider call of it succeeded; cached answers call nobody |
| `Failover.FailoverExactly` | internal/proxy/handler.go:180-213 | in every run a request for groq or gemini ends unanswered if and only if it has missed its own provider (not configured, refused by the breaker, or failed) and the other one, gemini with gemini-1.5-flash or groq with llama-3.1-8b-instant, is not configured or missed too; from the first miss on it asks, and is answered by, exactly that other request |
| `Failover.CallsConserved` | internal/proxy/handler.go:64-83 | per provider, the tally of calls let through equals recorded successes plus failures plus calls in flight, and no provider gains or loses its breaker |
| `Failover.TalliesCountCalls` | internal/proxy/handler.go:158-178 | the tallies count exactly the Allow calls the provider's breaker granted and the results it was given |
| `Failover.AllowedCallsAccounted` | internal/proxy/handler.go:64-83 | so in every run the Allow calls that returned true are the recorded successes, the recorded failures and the calls in flight |
| `Failover.BreakerIsARun` | internal/proxy/handler.go:158-178 | each breaker of an interleaved run has gone through exactly the atomic calls made on it |
| `Failover.BreakerClock` | internal/proxy/handler.go:158-178 | those calls carry a clock that never goes back |
| `Failover.ProbesOfAProvider` | internal/proxy/handler.go:26-38 | so the spacing and the rate of probes hold for every provider whatever requests and failovers interleave |
| `Crosstalk.PublishedIsGenuine` | internal/proxy/handler.go:219-232 | the background task writes under the key of the request the provider was called with |
| `Crosstalk.NothingCrosses` | internal/cache/redis.go:119-188 | in every interleaving with failover, timeouts, errors and expiry, every cached value, delivered message, stored row and hit comes from a successful call made under that key (or model) |
| `Crosstalk.PublishedNeverCrosses` | internal/cache/redis.go:159-188 | so does every payload about to be set or published, and it names the provider and model of its request |
| `Crosstalk.HitAnswersTheOwnRequest` | internal/cache/redis.go:69-87 | with the real key, a HIT is the answer to a provider call made with a request equal to the caller's in every field, marked as cached and with latency 0 |
| `Crosstalk.SemanticHitKeepsTheModel` | internal/cache/semantic.go:90-113 | a SEMANTIC-HIT comes from a call to the caller's own provider and model |
| `Stampede.LockDeleted` | internal/cache/redis.go:182-185 | unless it expires, a foreign request deletes it or its delete may be executed twice, only the holder deletes a lock, at once or late, and gives it up by that |
| `Stampede.LockLastsThirtySeconds` | internal/cache/redis.go:130-136 | a lock that is taken stands for 30 s in every run that does not delete it, and may expire right afterwards |
| `Stampede.DomesticRun` | internal/proxy/handler.go:153-198 | in every run whoever calls or publishes with a key is a plain request with that key of its own, or a kind of caller the environment permits |
| `Stampede.DisciplineRun` | internal/proxy/handler.go:137-232 | if errors make no owners, whoever is past the lock of its key holds it, up to the delete, and for good after a 503 or an answer under another key |
| `Stampede.ExclusiveRun` | internal/cache/redis.go:119-137 | if nothing but the holder deletes the lock, and only once, at most one request holds a key and a held key is locked |
| `Stampede.AbandonedLockStays` | internal/proxy/handler.go:182-232 | after a 503, and after failover to another key, the own lock stays: no request can win it, and none with that key is on its way to publish |
| `CachedValue.OneHolderRun` | internal/cache/redis.go:129-137 | under the condition of `MutualExclusionExact` at most one request holds a key, for every key function |
| `CachedValue.SingleFlightRun` | internal/proxy/handler.go:137-170 | under the condition of `SingleFlightExact` at most one call made with a key, by its own or a rewritten request, is under way, for every key function |
| `CachedValue.IdleRun` | internal/cache/redis.go:119-137 | while a key is cached no plain request for it stands before the lock, past it or in a call, under the condition of `NoCallWhileCachedExact` |
| `CachedValue.CalledBeforeCached` | internal/proxy/handler.go:137-170 | so whoever enters a call with a key finds the key uncached, for every key function |
| `CachedValue.OneCallRun` | internal/proxy/handler.go:137-170 | if moreover the value stays, at most one request ever calls with a key |
| `CachedValue.SettledRun` | internal/cache/redis.go:119-188 | a lock deleted by somebody else, or twice, does no harm as long as nobody comes for it once the key has been cached |
| `CachedValue.CachedKeyCallsNoProvider` | internal/cache/redis.go:119-137 | from any state with the key cached, a plain request whose own key it is and whose error-free read comes later calls no provider while the entry stays |
| `Overlap.RealKeysSeparate` | internal/cache/redis.go:45-67 | the real cache key is one of the key functions of the exact results |
| `Overlap.ExpiryHoldsToo` | internal/cache/redis.go:129-130 | with lock expiry two requests hold a key |
| `Overlap.ReentryHoldsToo` | internal/cache/redis.go:182-185 | an owner by error or a foreign publisher deletes the lock under its holder, and a request that comes past the cached value takes it |
| `Overlap.RivalsBothCall` | internal/proxy/handler.go:137-198 | an expired lock, an owner by error, a failover into the key and a stream each lead to two calls with one key under way |
| `Overlap.RivalCallsLate` | internal/proxy/handler.go:153-198 | and to a call that starts when the value is already cached |
| `Overlap.ReentryCallsAgain` | internal/cache/redis.go:120-137 | so do a miss read before the value was set and a failing read; together with eviction each leads to a second request calling |
| `Overlap.ResentHoldsAndCallsToo` | internal/cache/redis.go:182-185 | a delete that is executed, and executed again after it was sent again, deletes the lock of the next holder: where requests may come past a cached value two hold the key, and two calls are under way |
| `Overlap.ResentCallsPastCachedValue` | internal/cache/redis.go:182-185 | and a call starts when the value is already cached |
| `Overlap.LateSetCallsPastCachedValue` | internal/cache/redis.go:89-107 | a SET left on a closed connection is executed after the value was evicted and another request has taken the lock, whose call then starts when the key is cached |
| `Overlap.MutualExclusionExact` | internal/cache/redis.go:129-137 | in all runs of an environment at most one request holds a key, if and only if its lock does not expire and either only the holder deletes it, and only once, or nobody takes it again once the key was cached |
| `Overlap.SingleFlightExact` | internal/proxy/handler.go:137-198 | in all runs at most one call made with a key is under way, if and only if the lock does not expire, errors make no owners, neither failover from another key nor a stream calls with it, and deletes are not sent again where somebody may come for the lock past a cached value |
| `Overlap.NoCallWhileCachedExact` | internal/cache/redis.go:119-137 | in all runs no call with a key starts while it is cached, if and only if only requests from its lock call with it, no value is set past a stale miss, no read of it fails, and where it may be evicted deletes are not sent again and no SET is executed that its client gave up |
| `Overlap.OneCallExact` | internal/cache/redis.go:119-188 | in all runs at most one request ever calls with a key, if and only if moreover the value is not evicted |
| `Cache.Cache.Get` | internal/cache/redis.go:69-87 | a hit is the stored value marked as cached; a miss is no error, a failing command or unreadable value is |
| `Cache.Cache.Set` | internal/cache/redis.go:89-107 | stores the copy with latency 0 and not cached, under the request's key only |
| `Cache.Cache.GetOrLock` | internal/cache/redis.go:119-157 | which of value, ownership, message and error the caller gets, and the locks left behind |
| `Cache.Cache.PublishResult` | internal/cache/redis.go:159-188 | values, messages and locks after set, publish and delete, cut short by the first error |
| `Cache.GetOrLockIsARun` | internal/cache/redis.go:119-140 | alone, it is the machine's read, SETNX and subscription |
| `Cache.PublishResultIsARun` | internal/cache/redis.go:172-187 | alone, it is the machine's set, publish and delete: same values and locks, and every waiting request has received exactly what was published under its key, in order |
| `Messages.HearsRun` | internal/cache/redis.go:140-156 | through any run a waiting request receives exactly what the run publishes on its own channel, in order |
| `Handler.Handler.constructor` | internal/proxy/handler.go:26-38 | one fresh breaker per provider, distinct objects, five failures and 30 s |
| `Handler.Handler.ExecuteWithBreaker` | internal/proxy/handler.go:158-178 | unconfigured or refused calls touch nothing; a call records its result with its own breaker only |
| `Handler.Handler.Reroute` | internal/proxy/handler.go:184-197 | groq becomes gemini with gemini-1.5-flash, gemini becomes groq with llama-3.1-8b-instant; streams keep their model, and any other provider has no fallback and keeps its request |
| `Handler.Handler.CallProviders` | internal/proxy/handler.go:180-213 | which providers are called in which order, all breakers afterwards, and the answer |
| `Handler.FallbackAnswersExactly` | internal/proxy/handler.go:180-213 | a request for groq or gemini is answered by its own provider under its own model if that would answer, else by the other one under its fixed model if that would, else by nobody |
| `Handler.OtherProvidersStandAlone` | internal/proxy/handler.go:184-203 | any other provider has no second attempt |
| `Handler.Handler.PublishAndStore` | internal/proxy/handler.go:219-232 | the background task publishes and then stores a semantic row, whatever became of the publication |
| `Handler.Handler.LogAsync` | internal/proxy/handler.go:243-266 | the answer is inserted for the caller's key at the price it carries, for every way the insert can end; a refused row leaves none |
| `Handler.StreamPrice` | internal/proxy/handler.go:111-120 | the price of a finished stream per million tokens, were usage reported, with the provider and model of its log entry |
| `Handler.Handler.AnswerAfterMiss` | internal/proxy/handler.go:153-240 | 503 leaves Redis, the semantic table and the log alone; a success is decorated, published under the rewritten request's key, stored and sent to the log |
| `Handler.Handler.ServeStream` | internal/proxy/handler.go:59-124 | streams touch neither lock nor cache; a finished one is sent to the log at the price of the usage that comes back, which is zero in every run of the machine |
| `Handler.Handler.ServePlain` | internal/proxy/handler.go:137-240 | a cached answer is sent to the log and changes nothing else; otherwise calls, publication, semantic row and log follow |
| `Handler.Handler.ServeHTTP` | internal/proxy/handler.go:44-266 | for every body and every way Redis, the providers and the log insert behave: answer, breakers, Redis contents, semantic table and log table |
| `HandlerRuns.ExecuteIsARun` | internal/proxy/handler.go:158-178 | one executeWithBreaker alone is the machine's attempt and result |
| `HandlerRuns.ServeIsARun` | internal/proxy/handler.go:153-213 | the provider phase alone is a run of the machine with the same breakers, calls and answer |
| `HandlerRuns.FailoverIsServed` | internal/proxy/handler.go:180-213 | in the machine, a request for groq or gemini whose first attempt fails is answered by a call of the other one under its fixed model, if that is configured, let through and successful, and not at all otherwise |
| `ServeRuns.ServeHTTPIsARun` | internal/proxy/handler.go:44-266 | after any run, a call of `ServeHTTP` with nothing in between but the publication that ends its wait, if one does, is a run of the machine and its log, from the arrival to the row in the log: same answer, the same breakers, cached values, locks, semantic rows and log rows afterwards, and every request that was waiting has heard exactly what was published under its key |
| `Charges.LedgerBalances` | internal/proxy/handler.go:113-149 | in every run, for every API key, the sum over the log table plus what was lost by failed or refused inserts, what is still to be inserted and what was paid for streams is what was paid to providers plus, once more, the price of every cached answer |
| `Charges.PriceSplits` | internal/proxy/groq.go:205-235 | an answer carries the price of the call made for it, or that of the call its copy was made by, and a stream carries none whatever it cost |
| `Charges.HitCostsItsCall` | internal/proxy/handler.go:126-149 | a cached answer is charged the full price of the call its copy was made by |
| `Charges.RowLost` | migrations/001_schema.sql:16 | a run in which a paid answer leaves no row: its insert fails, or the table refuses the row of the mock provider |
| `Charges.HitChargedAgain` | internal/proxy/handler.go:139-149 | a run in which one provider call is charged twice, the second time for a HIT |
| `Charges.StreamNotCharged` | internal/proxy/groq.go:205-235 | a run in which a stream that was paid for leaves a row of price 0 |
| `Charges.LogExactIff` | internal/proxy/handler.go:243-266 | in all runs whose inserts are through the log charges every key exactly what was paid, if and only if no cached answer has a price, streams cost nothing, no insert of a priced row fails and the table refuses none |
| `CacheKey.TextRoundTrip` | internal/cache/redis.go:64 | escaped strings of any length are recovered (section 7 of RFC 8259 with HTML escaping) |
| `CacheKey.DecimalRoundTrip` | internal/cache/redis.go:61 | integers are recovered |
| `CacheKey.MessagesRoundTrip` | internal/cache/redis.go:60 | message lists of any length are recovered |
| `CacheKey.KeyRoundTrip` | internal/cache/redis.go:45-64 | every field of the hashed struct is recovered, with the system prompt omitted when empty |
| `CacheKey.EncodingsEqualIff` | internal/cache/redis.go:48-64 | the encoding is injective: equal exactly for requests that agree on every field except Stream |
| `CacheKey.KeysEqualIff` | internal/cache/redis.go:45-67 | keys are equal if and only if the requests agree on every field except Stream, for the finite temperatures that a body can carry |
| `CacheKey.NonFiniteKeysCollide` | internal/cache/redis.go:64-66 | requests with a temperature that JSON cannot carry would all share one key, with no other request |
| `CacheKey.PlainKey` | internal/cache/redis.go:45-67 | the hashed text written out, for requests in which nothing is escaped: names and order of the fields, and no system prompt when it is empty |
| `CacheKey.EscapedIsSafe` | internal/cache/redis.go:64 | what is escaped and what stands for itself, HTML characters and line separators included |
| `Vectors.CauchySchwarz` | internal/cache/semantic.go:95-101 | the bound behind cosine similarity, with equality exactly for proportional vectors |
| `Vectors.DotAdds` | internal/cache/semantic.go:49-52 | one component each is their product, and components side by side add up |
| `Semantic.PromptTokens` | internal/cache/semantic.go:79-87 | the space-joined prompt has exactly the tokens of its messages, in order |
| `Semantic.TokensExactly` | internal/cache/semantic.go:27-32 | the tokens of a text are the one list of nonempty strings of letters and digits that make up the lowered text together with gaps of separators, none empty between two tokens |
| `Semantic.TokensKeepEveryWord` | internal/cache/semantic.go:27-32 | one after the other the tokens are the word characters of the text, all of them and in order |
| `Semantic.PromptOfMessages` | internal/cache/semantic.go:79-87 | of the messages of a request nothing but the contents reaches the tokens |
| `Semantic.WrapIsUnobservable` | internal/cache/semantic.go:40-44 | the uint32 wrap-around never changes a word's bucket |
| `Semantic.PolynomialOfWord` | internal/cache/semantic.go:40-43 | one character is its code, and a word in front of another counts 31 times for every character behind it |
| `Semantic.CountIsNumber` | internal/cache/semantic.go:39-46 | a bucket's count is the number of words whose polynomial leaves that remainder modulo 128 |
| `Semantic.CountsAdd` | internal/cache/semantic.go:38-46 | bucket counts add up over concatenated token lists |
| `Semantic.CountsDependOnBag` | internal/cache/semantic.go:38-46 | bucket counts depend only on the multiset of tokens |
| `Semantic.BucketOf` | internal/cache/semantic.go:40-44 | the hash loop computes the polynomial's remainder |
| `Semantic.CountWords` | internal/cache/semantic.go:39-46 | the counting loop leaves every bucket's count in the vector |
| `Semantic.SumOfSquares` | internal/cache/semantic.go:49-52 | the loop computes the squared norm |
| `Semantic.DivideBy` | internal/cache/semantic.go:54-59 | every component is divided in place |
| `Semantic.Embed` | internal/cache/semantic.go:24-62 | the result is the normalised count vector, and the zero vector without tokens |
| `Semantic.UnitNorm` | internal/cache/semantic.go:48-59 | a prompt with a token is embedded as a unit vector |
| `Semantic.SimilarityExact` | internal/cache/semantic.go:74-101 | similarity lies in [0, 1], is 1 exactly for proportional counts, and passes 0.92 exactly when the counts pass a test on squares |
| `Semantic.SameBagSameEmbedding` | internal/cache/semantic.go:24-62 | equal bags of tokens are embedded alike |
| `Semantic.PermutedMessages` | internal/cache/semantic.go:79-87 | permuting messages or changing roles leaves the embedding unchanged |
| `Semantic.SemanticCache.BuildPrompt` | internal/cache/semantic.go:80-85 | the builder loop joins all contents, each followed by a space |
| `Semantic.SemanticCache.Store` | internal/cache/semantic.go:129-159 | one row is appended with the embedding of the prompt and the canonical copy of the response, for every way the insert can end |
| `Semantic.SemanticCache.FindSimilar` | internal/cache/semantic.go:78-127 | the proposed row is handed out, marked as cached, exactly when it meets the WHERE clause on provider, model and similarity |
| `Semantic.SemanticCache.StoredPromptPasses` | internal/cache/semantic.go:95-101 | a stored prompt with the same bag of tokens passes the threshold for its provider and model, with similarity 1 |
| `Encodings.NothingLostOrDuplicated` | internal/proxy/gemini.go:72-88 | every message is a system text or a turn, never both and never neither |
| `Encodings.GroqMessages` | internal/proxy/groq.go:61-77 | the append loops build the system prompt followed by all messages |
| `Encodings.GroqKeepsConversation` | internal/proxy/groq.go:61-84 | the Groq encoding decodes to the conversation of every request |
| `Encodings.BuildGemini` | internal/proxy/gemini.go:64-98 | the loop partitions system texts and turns, mapping assistant to model |
| `Encodings.GeminiKeepsConversation` | internal/proxy/gemini.go:65-98 | the Gemini encoding decodes to the conversation if and only if no message has the role "model" |
| `Encodings.EncodingsAgree` | internal/proxy/gemini.go:65-98 | both encodings say the same under exactly that condition |
| `Encodings.GeminiRoles` | internal/proxy/gemini.go:72-88 | no content sent to Gemini has the role assistant or system |
| `Encodings.NothingAdded` | internal/proxy/gemini.go:94-98 | without a system prompt Groq gets the messages as they are, and Gemini gets a system instruction if and only if there is a system text |
| `Encodings.GeminiNamesModel` | internal/proxy/gemini.go:107 | the requested model is asked, and requests without the role "model" are sent alike if and only if model and conversation are the same |
| `Encodings.GeminiDropsSampling` | internal/proxy/gemini.go:90-98 | requests that differ only in sampling parameters have different keys and the same Gemini request |
| `SseRelay.Relay` | internal/proxy/groq.go:205-235 | what the scanner loop emits and how it ends, for every body, cancellation point and read error |
| `SseRelay.EndingExactly` | internal/proxy/groq.go:208-235 | an error is reported if and only if the read fails or meets an overlong line with neither DONE nor a cancellation before it; Cancelled and Finished likewise |
| `SseRelay.LinesExactly` | internal/proxy/groq.go:205-212 | the lines read of a body are its lines without a trailing carriage return, an unfinished last one included, up to the first of 65536 bytes or more, which is an error |
| `SseRelay.RenderAppends` | internal/proxy/groq.go:215-225 | every event is written with an empty line after it, one after the other |
| `SseRelay.RelayedIsFilteredThroughDone` | internal/proxy/groq.go:213-227 | that is the data lines up to and including the first DONE |
| `SseRelay.EarlyStopIsPrefix` | internal/proxy/groq.go:208-211 | after any early stop the output is a line-granular prefix of the full relay |
| `SseRelay.RelayIsIdempotentIff` | internal/proxy/groq.go:205-229 | relaying the output again reproduces it if and only if no data line of the body, up to the first DONE, ends in two carriage returns |
| `SseRelay.CarriageReturnFreeIsIdempotent` | internal/proxy/groq.go:205-229 | in particular for every body without carriage returns |
| `SseRelay.BrokenReadExact` | internal/proxy/groq.go:205-233 | after a read error at byte p the output is a prefix of the full relay if and only if the break tears no data line |
| `Spend.Store.InsertLog` | internal/store/postgres.go:83-97 | appends the row stamped by the database clock, for every way the insert can end; a provider the table refuses is an error |
| `Spend.MicrosIsNearest` | migrations/001_schema.sql:23 | the stored amount is the price to the nearest micro-dollar |
| `Spend.Store.GetDailySpend` | internal/store/postgres.go:99-129 | the view's row as the first statement finds it, else the direct sum since midnight as the second finds it, whatever happened between them; an error only when the second fails |
| `Spend.MidnightIsLast` | internal/store/postgres.go:108-116 | midnight is the last multiple of 24 hours, and days are numbered by it |
| `Spend.FallbackIsDirectSum` | internal/store/postgres.go:111-116 | the fallback sums exactly the current UTC day |
| `Spend.SpendBelowDirectSum` | internal/store/postgres.go:99-129 | the answer of an uninterrupted call never exceeds the direct sum and equals it where the view has no row |
| `Spend.FreshViewIsDirectSum` | migrations/002_budget_view.sql:1-7 | right after a refresh it is the direct sum |
| `Spend.InsertKeepsSpend` | internal/store/postgres.go:83-97 | an insert lowers no sum and no answer |
| `Spend.RefreshKeepsSpend` | migrations/002_budget_view.sql:1-7 | a refresh lowers no answer |
| `Spend.FallbackExceedsView` | internal/store/postgres.go:108-128 | the fallback is the direct sum whatever the view holds, and exceeds the view's answer if and only if the view has a row for today that lags behind the log |
| `Budget.BudgetEnforcer.CheckBudget` | internal/middleware/budget.go:41-80 | verdict, cache and log after a check, for every way Redis and the two queries behave, every clock reading, unparsable entries and any change of the tables between the queries |
| `Budget.CheckBudgetIsARun` | internal/middleware/budget.go:51-67 | alone, it is the four steps of the interleaved model: check, view query, sum query, store, whichever of the two commands and the two queries fail |
| `Budget.LoneCheckDecides` | internal/middleware/budget.go:51-77 | alone, it decides on the entry it finds, a text that does not parse counting as nothing, or on the answer of its queries |
| `Budget.GetDailySpendIsARun` | internal/store/postgres.go:99-129 | with anything in between, the two queries of a check answer by the tables and the clock of their own moments |
| `Budget.RejectionIsSound` | internal/middleware/budget.go:69-77 | in every interleaving of checks, their single queries, stores, inserts and refreshes that take time, with failing queries and resent stores, a rejection means that the spend recorded for the day of the answer has reached the limit |
| `Budget.SpendIsMonotone` | internal/store/postgres.go:99-129 | what an uninterrupted call would answer never decreases within a UTC day, over any run that logs nothing while the view is refreshed |
| `Budget.AnswersRiseExact` | internal/store/postgres.go:99-129 | of two answers within a UTC day the later is never lower, in all runs, if and only if no view query fails, no refresh becomes visible between the two queries of a call and nothing is logged while the view is refreshed |
| `Budget.StalenessExact` | internal/middleware/budget.go:51-67 | every check begun from `wait` after the limit was reached on rejects, in all runs, if and only if nothing is logged while the view is refreshed and `wait` is more than 60 s plus the delay of a store, or no check is left that day |

## Left out

- HTTP plumbing, body decoding, headers, routing, auth, admin handlers, configuration, the health endpoint and statistics: no deep property.
- Response parsing in the providers: a provider result is an error or a response that names the called provider and the requested model; a panic inside a call is not modelled.
- In the interleaved machine a semantic hit may be any stored row of the caller's provider and model: which rows are similar is the subject of `Semantic` alone.
- Semantic.SemanticCache.FindSimilar: does not say which row is proposed first, because the ivfflat index is approximate (migrations/003_semantic_cache.sql:15); zero vectors, for which Postgres yields NaN, are excluded from similarity.
- Semantic.Embed: works over exact reals, because float32 rounding is not the point of the properties; the Unicode lower-casing is per character.
- Cache.Cache.GetOrLock: what other clients do during the wait is the message it gets; `Gateway` interleaves them.
- RateLimit.RateLimiter.Allow: scores are integers, because millisecond timestamps are exact in the float64 score.
- Spend.Store.GetDailySpend: the fallback compares a timestamp with a date in the session's time zone, taken to be UTC.
- Spend.Store.InsertLog: prices are not negative, and one that NUMERIC(10,6) cannot hold is one way for the insert to fail.
- CachedValue.CachedKeyCallsNoProvider: speaks of requests whose own key is cached; a stream, and a request that failover rewrites into the key, call for it all the same, as `Overlap.NoCallWhileCachedExact` says.
- Handler.Handler.ServeHTTP: the background task and the log insert run at once instead of concurrently, and each Redis command of the call executes at most once; `Gateway` and `Charges` interleave all of them, and execute commands late and more than once.
- CacheKey.KeysEqualIff: SHA-256 and the number formatter are injective functions, and requests have the finite temperatures that JSON can carry.
- Liveness: no claim that waiting requests are woken, since a subscriber can miss a publish and a failed owner publishes nothing.
- The five-second timeout of a log insert is one way for it to fail; the deletion of an API key, which detaches its rows, is not modelled.
