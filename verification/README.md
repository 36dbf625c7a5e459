# The gateway's admission, resilience and streaming kernel

A model of what an LLM gateway decides: who is admitted, which provider is contacted,
what is charged, what a stream may lose and what a cache may answer. Every statement is
checked by `dafny verify dfyconfig.toml`.

## What is modelled

| Files | Part of the gateway |
|---|---|
| `TokenBuckets`, `RateLimiter` | the lazily refilled token bucket and the reservation handle: operations on values with the laws of whole runs, and the classes that carry the state in place |
| `CircuitBreakers`, `ProviderBreaker` | the circuit breaker as a timed state machine with the laws of whole histories, and its class |
| `Utf8`, `SseFraming`, `SseEvents`, `StreamPipeline` | incremental framing of an event stream, the two scans of an event, and the passthrough loop with its once-only callbacks |
| `FailoverOrder`, `FailoverLoop`, `HandlerBody` | the order of providers, and one handler call as it is written, over breaker, bucket and cache objects |
| `ExactCache`, `Gateway*` | any number of handler calls interleaved over shared breakers, buckets and cache, as a transition system with its invariants; `GatewayWitness` builds the runs that the existence results need |
| `HandlerRuns` | the handler as it is written against the moves of the transition system |
| `Similarity`, `SemanticCache` | cosine similarity and the vector cache |

Conventions of the model:

- One move of `Gateway` is one critical section of one shared object, or one answer of the
  network. Interleaving, network outcomes, the clock, cache evictions and dropped handlers
  are open. An action that is not possible leaves the state alone, so every sequence of
  actions is a run and the theorems quantify over all of them.
- A request to an upstream has a deadline, set when it is sent: the HTTP client gives up when
  the request timeout is over, headers, body or stream (src/proxy/client.rs:45). The clock
  never passes the deadline of a request that is still waiting. If several configured
  providers share a name, the longest of their timeouts counts.
- `Request.looks`, `Request.attempts`, `Request.usage`, `System.answers` and the fields of
  `ProviderState` other than `breaker` record what has happened; no move's outcome depends on
  them except that `|looks|` and `|attempts|` are the positions of the two loops.
- `f64` and `f32` are exact reals, clock readings are real seconds that do not run backwards
  in a run, and `u32`/`u64` counts do not wrap. The retry hint saturates at 2^64 - 1.
- The JSON parser, the square root and the embedding backend are parameters. SHA-256 is taken
  to be free of collisions. The cache may lose any entry at any moment.

## Where the code and its documentation disagree

The model follows the code.

- The request that turns Open into HalfOpen takes no slot (src/router/circuit_breaker.rs:112-114),
  so an episode admits one request more than src/config.rs:66 says (`EpisodeAdmissions`,
  `ProbesInFlight`).
- An upstream 401 or 403 is recorded as a success (src/handlers/chat.rs:211) although the table
  at src/handlers/chat.rs:44 lists it as a failure (`VerdictByStatus`).
- Chat accepts every status that is neither retryable nor a client error, 1xx and 3xx included
  (src/handlers/chat.rs:220); embeddings fails over on them (src/handlers/embeddings.rs:141-147).
- `"usage": null` is a usage record of (0, 0) (src/proxy/sse_parser.rs:107-118, `NonObjectUsageIsCharged`).
- Only two line feeds in a row end a frame and the buffer has no ceiling
  (src/proxy/sse_parser.rs:45-47), against README.md:418 and README.md:802-807
  (`FramesNeedBlankLine`).
- Success is recorded when headers arrive (src/handlers/chat.rs:221), so a provider whose streams
  break one at a time is never tripped at a threshold of two or more, against the intent at
  src/proxy/stream.rs:42-44 (`BrokenStreamsNeedConcurrency`).
- The request timeout also cuts streams, which are sent with the same builder
  (src/proxy/client.rs:45), against src/config.rs:81 and src/proxy/stream.rs:28.
- A negative temperature is cacheable (src/cache/exact.rs:30), against src/cache/exact.rs:23.

Properties one might expect that fail, with what holds instead:

- A half-open breaker does not always get its report: a handler dropped at the send await
  (src/handlers/chat.rs:186) keeps its slot for ever. `WedgeIsReachable` builds such a run for
  every configuration, with requests that read all breakers and try all candidates in order
  and with nothing in flight while time passes, and `RecoversUnlessWedged` says in exactly
  which reachable states a provider can still recover. A report comes within the request
  timeout unless the handler of the request that opened the episode was dropped
  (`LateEpisodeWasAbandoned`).
- A reservation that is dropped is not always invisible (`DropAfterSpendingIsVisible` is a
  run). When the same is granted in between as would be without it, it is invisible if and
  only if the bucket never came so full that the reservation would not have fitted on top, or
  was never fuller than at the drop (`DropInvisibleIff`).
- Inserting into a semantic cache with room for no entry panics
  (src/cache/semantic.rs:185-187); `SemanticCache.SemanticCache.Insert` says exactly when.
- The 3600 s bound on one refill is unobservable exactly for buckets that fill within it
  (`ClampUnobservable`), as all buckets made from the configuration do (`PerMinuteFills`).

## Model

| member | source | states |
|---|---|---|
| TokenBuckets.ClampUnobservable | src/middleware/rate_limit.rs:50-59 | the 3600 s bound on one refill never shows if and only if an empty bucket fills within it |
| TokenBuckets.PerMinuteFills | src/middleware/rate_limit.rs:106-111 | every bucket made from the configuration fills within that bound |
| TokenBuckets.LazyRefinesContinuous | src/middleware/rate_limit.rs:50-95 | in every run the lazily refilled bucket gives the answers, retry hints and readings of a tank filled continuously and without bound |
| TokenBuckets.ObservationsInvisible | src/middleware/rate_limit.rs:61-95 | removing every observation and every refused call from a run changes no later answer, hint or reading |
| TokenBuckets.ReserveThenDropInvisible | src/middleware/rate_limit.rs:148-154 | a reservation dropped after any time, with only observations in between, changes no later answer, hint or reading |
| TokenBuckets.DropInvisibleIff | src/middleware/rate_limit.rs:148-154 | with any traffic in between that is granted alike, the drop changes no later answer if and only if peak + reserved <= capacity or the peak is the level at the drop |
| TokenBuckets.SlidingWindow | src/middleware/rate_limit.rs:50-87 | in every run and window, consumption is at most capacity plus rate times the window plus refunds in the window |
| TokenBuckets.RequestWindow | src/middleware/rate_limit.rs:192-198 | a bucket charged one token a request grants at most rpm + rpm * window / 60 requests in any window |
| TokenBuckets.RetryGranted | src/middleware/rate_limit.rs:63-79 | an undisturbed retry succeeds exactly when the deficit has flowed in |
| TokenBuckets.RetryAfterIsExact | src/middleware/rate_limit.rs:63-79 | the hint is the least whole number of seconds after which an undisturbed retry succeeds, between 1 and 60 |
| TokenBuckets.HintIsLeast | src/middleware/rate_limit.rs:70-77 | for every cost the hint is the least whole number of seconds, one at least, in which the deficit would flow in, and 2^64 - 1 if there is none |
| TokenBuckets.GrantedExactly | src/middleware/rate_limit.rs:63-79 | a charge is granted exactly if min(tokens + limit * elapsed / 60, limit) covers it |
| TokenBuckets.TooLargeNeverGranted | src/middleware/rate_limit.rs:67-78 | a cost above the capacity is refused after every run |
| TokenBuckets.ConsumeConserves | src/middleware/rate_limit.rs:63-79 | consuming makes no tokens and loses exactly those that do not fit |
| TokenBuckets.RefundConserves | src/middleware/rate_limit.rs:83-87 | refunding makes no tokens and loses exactly those that do not fit |
| TokenBuckets.ReconcileConserves | src/middleware/rate_limit.rs:136-145 | the same for reconciling, and when the final charge is the actual cost and when the reservation |
| RateLimiter.TokenBucket.constructor | src/middleware/rate_limit.rs:38-47 | a bucket starts full, with capacity and rate not below zero |
| RateLimiter.TokenBucket.FromConfig | src/middleware/rate_limit.rs:106-111 | a limit per minute is a full bucket of that capacity |
| RateLimiter.TokenBucket.RefillLocked | src/middleware/rate_limit.rs:50-59 | the in-place refill is Refill |
| RateLimiter.TokenBucket.TryConsume | src/middleware/rate_limit.rs:63-79 | the in-place charge and its answer are those of the specification |
| RateLimiter.TokenBucket.Refund | src/middleware/rate_limit.rs:83-87 | the in-place refund is that of the specification |
| RateLimiter.TokenBucket.AvailableTokens | src/middleware/rate_limit.rs:90-94 | observing refills and does nothing else |
| RateLimiter.ReservationHandle.constructor | src/middleware/rate_limit.rs:116-120 | a new handle is open and holds the reserved amount |
| RateLimiter.ReservationHandle.Reconcile | src/middleware/rate_limit.rs:136-154 | settling changes the bucket once; the destructor that follows does nothing |
| RateLimiter.ReservationHandle.Drop | src/middleware/rate_limit.rs:148-154 | the destructor refunds an open reservation and only that |
| RateLimiter.TryReserve | src/middleware/rate_limit.rs:114-121 | there is a handle exactly if the cost was granted |
| CircuitBreakers.EligibleIffAllowed | src/router/circuit_breaker.rs:85-128 | at one instant the read-only check agrees with asking, and a refusal changes nothing |
| CircuitBreakers.AdmissionByMode | src/router/circuit_breaker.rs:105-128 | Closed admits always, Open from the cooldown on, HalfOpen below max(1, half_open_max_calls) slots |
| CircuitBreakers.CountersRefineHistory | src/router/circuit_breaker.rs:105-159 | after every history failure_count is the failures since the last success, last_failure the latest one; Closed implies below max(1, threshold), Open or HalfOpen a recorded failure |
| CircuitBreakers.FailureTrips | src/router/circuit_breaker.rs:144-159 | a failure leaves the breaker Open exactly if it was not Closed or the run of failures reaches the threshold |
| CircuitBreakers.NothingAdmittedWhileCooling | src/router/circuit_breaker.rs:105-159 | after a failure at t that leaves the breaker Open nothing is admitted before t + cooldown, whatever follows |
| CircuitBreakers.OpenAdmitsExactlyAfterCooldown | src/router/circuit_breaker.rs:109-118 | an open breaker admits exactly from the last failure plus the cooldown on |
| CircuitBreakers.EpisodeAdmissions | src/router/circuit_breaker.rs:105-128 | asked any number of times n at any times in an episode it admits min(n, max(1, half_open_max_calls) + 1): the bound is attained |
| ProviderBreaker.CircuitBreaker.constructor | src/router/circuit_breaker.rs:65-77 | a new breaker is Closed and empty |
| ProviderBreaker.CircuitBreaker.IsEligible | src/router/circuit_breaker.rs:85-98 | the check is that of the specification and changes nothing |
| ProviderBreaker.CircuitBreaker.AllowRequest | src/router/circuit_breaker.rs:105-128 | new state and answer are those of the specification |
| ProviderBreaker.CircuitBreaker.RecordSuccess | src/router/circuit_breaker.rs:132-139 | the new state is that of the specification |
| ProviderBreaker.CircuitBreaker.RecordFailure | src/router/circuit_breaker.rs:144-159 | the new state is that of the specification |
| Utf8.CutAfterNewline | src/proxy/sse_parser.rs:34-39 | cutting valid UTF-8 (section 4 of RFC 3629) after a line feed leaves two valid halves |
| Utf8.Utf8Exactly | src/proxy/sse_parser.rs:37-39 | a byte string decodes exactly if it is the encoding (section 3 of RFC 3629) of a text of scalar values |
| SseFraming.FindEventEnd | src/proxy/sse_parser.rs:45-47 | the first blank line, or that there is none |
| SseFraming.EventEndIs | src/proxy/sse_parser.rs:45-47 | that is where the bytes 10 and 10 first meet |
| SseFraming.SseParser.Push | src/proxy/sse_parser.rs:30-43 | the events are the decodable complete frames of buffer and chunk, the buffer is what is left |
| SseFraming.SplitIsFraming | src/proxy/sse_parser.rs:34-47 | frames and rest concatenate to the input, each frame has its only blank line at its end, the rest has none |
| SseFraming.FramingIsUnique | src/proxy/sse_parser.rs:34-47 | there is only one such framing |
| SseFraming.SplitAppend | src/proxy/sse_parser.rs:30-43 | later bytes never change frames already found |
| SseFraming.FeedIsSplit | src/proxy/sse_parser.rs:30-43 | feeding chunks gives the events and buffer of the concatenated bytes |
| SseFraming.ChunkingInvariant | src/proxy/sse_parser.rs:30-43 | two ways of cutting the same bytes give the same events and buffer |
| SseFraming.NoFrameDropped | src/proxy/sse_parser.rs:34-39 | if the bytes received begin a valid UTF-8 text, no complete frame is dropped |
| SseFraming.FramesNeedBlankLine | src/proxy/sse_parser.rs:45-47 | frames come out exactly if two line feeds meet somewhere; a CRLF-only stream never frames and is buffered whole |
| SseEvents.LinesAppend | src/proxy/sse_parser.rs:54-56 | the lines of concatenated frames are the lines of each in turn |
| SseEvents.ScanAppend | src/proxy/sse_parser.rs:54-125 | both scans of concatenated lines are the first result of either |
| SseEvents.DataLine | src/proxy/sse_parser.rs:56-66 | a line carries what follows `data: ` unless that is `[DONE]`; other lines carry nothing |
| SseEvents.FirstLine | src/proxy/sse_parser.rs:55 | a line ends at a line feed, without it and without one carriage return before it |
| SseEvents.ContentExactly | src/proxy/sse_parser.rs:80-92 | content is a choice whose delta has a content that is a non-empty string |
| SseEvents.ContentOfOneChoice | src/proxy/sse_parser.rs:80-92 | a text counts as content, an empty or an absent one does not |
| SseEvents.FirstUsageIsFound | src/proxy/sse_parser.rs:99-125 | the first usage record is found wherever it is, with its two counts, an absent one being zero |
| SseEvents.FoundIfThere | src/proxy/sse_parser.rs:54-125 | a scan finds something exactly if some line carries it |
| StreamPipeline.Passthrough | src/proxy/stream.rs:106-193 | output is every chunk read, and one trailing error exactly if the first read that is no chunk is not the end of the stream; usage is charged once, by a batch scan of the whole, at the first chunk that completes a record; TTFT is recorded once, at the first chunk that completes content |
| StreamPipeline.Observe | src/proxy/stream.rs:142-171 | the once-only flags record the first content event and the first usage record of all events so far |
| StreamPipeline.BatchIsEvents | src/proxy/stream.rs:142-171 | scanning events as they complete finds what a line scan of the whole stream finds |
| StreamPipeline.CompletePartIsPrefix | src/proxy/stream.rs:141-142 | for valid UTF-8 what is scanned is everything read except the unfinished frame |
| StreamPipeline.FirstFindsAreUnique | src/proxy/stream.rs:145-170 | a stream has at most one chunk that first completes content or usage, so TTFT and charge are determined |
| StreamPipeline.NonObjectUsageIsCharged | src/proxy/sse_parser.rs:107-118 | a usage that is null or otherwise no object, wherever it is the first, settles the whole stream at (0, 0), whatever follows |
| ExactCache.KeyInjective | src/cache/exact.rs:33-36 | the hashed text determines model and payload if payloads are JSON texts |
| ExactCache.KeyExactly | src/cache/exact.rs:29-38 | there is a key exactly for temperatures not above zero: model, NUL, payload |
| ExactCache.RawSeparatorWouldCollide | src/cache/exact.rs:33-36 | without JSON escaping two cacheable requests could share a key |
| FailoverOrder.SortedIsStable | src/config.rs:168-172 | the sorted order holds every configured position once, by priority and then by position |
| FailoverLoop.AskAt | src/handlers/chat.rs:176-179 | asking changes one breaker by one event |
| FailoverLoop.ReportAt | src/handlers/chat.rs:188-221 | reporting changes one breaker by one event |
| FailoverLoop.AttemptAt | src/handlers/embeddings.rs:100-189 | one turn of the loop: what is reported, what the turn amounts to, and the answer if it is decisive |
| FailoverLoop.Failover | src/handlers/chat.rs:170-318 | the answer of the first decisive position; positions are passed over exactly if refused; each breaker ends where the calls of the attempts lead |
| FailoverLoop.ResultIsDetermined | src/handlers/chat.rs:170-318 | for given replies, clock and breakers only one list of attempts and one answer meet that contract |
| FailoverLoop.ReplyDecidesResult | src/handlers/chat.rs:199-311 | a position let through that answers 200 with a body ends the loop with that body or its stream, one that answers 4xx other than 408 and 429 with that rejection |
| HandlerBody.SelectOrdered | src/router/selector.rs:42-59 | the picks are, in order, exactly the eligible providers, and no breaker changes |
| HandlerBody.Contact | src/handlers/chat.rs:154-318 | selection and failover together |
| HandlerBody.Handle | src/handlers/chat.rs:104-319 | answer, breakers, cache and bucket after one undisturbed call, for each way it can end, including who owns the reservation |
| HandlerRuns.HandledOnce | src/handlers/chat.rs:104-319 | that contract leaves no choice: same call, same state, same answer, breakers, cache and bucket |
| HandlerRuns.RunEndsAsHandled | src/handlers/chat.rs:104-319 | for every result of the method there is an undisturbed run of one request in the transition system that ends with its answer, attempts, breakers, cache and bucket |
| HandlerBody.Stream | src/handlers/chat.rs:226-256 | a stream settles its reservation once, with the sum of the two counts of the first usage record in all that was read, at the chunk that completes it, or else by a full refund, and reports a failure exactly if its first read that is no chunk is not the end |
| HandlerRuns.StreamEndsAsRead | src/handlers/chat.rs:226-256 | for every list of reads there is an undisturbed run of the stream in the transition system that leaves bucket and breaker as the method does |
| GatewayAdmission.ArrivalCharges | src/middleware/rate_limit.rs:192-198 | an arrival costs one token of a bucket of rpm tokens refilled at rpm / 60, gets through exactly if that is granted, and is else given that bucket's hint |
| GatewayAdmission.ArrivalIsExact | src/middleware/rate_limit.rs:192-198 | in every run an arrival gets through exactly if min(tokens + rpm * elapsed / 60, rpm) is one at least, and is else told the least whole number of seconds to wait |
| GatewayAdmission.BurstIsTheLimit | src/middleware/rate_limit.rs:106-111 | of a new client's arrivals at one instant exactly rpm get through |
| GatewayAdmission.AdmissionIsBucketRun | src/middleware/rate_limit.rs:183-198 | in every run a client's RPM bucket sees exactly its arrivals and is never refunded |
| GatewayAdmission.AdmissionsBounded | src/middleware/rate_limit.rs:183-198 | in every run and window a client gets at most rpm + rpm * window / 60 requests through |
| GatewayMoves.Calls | src/handlers/chat.rs:171-318 | a move makes at most one call, the one of its branch, on one breaker, and touches no other |
| Gateway.EveryAwaitCanBeDropped | src/handlers/chat.rs:133-277 | a handler can be dropped at each of its awaits |
| GatewaySelection.SelectionIsExact | src/router/selector.rs:42-59 | in every run the candidates are, in failover order, exactly the providers whose breakers were eligible when read; a request without providers saw none eligible |
| GatewaySelection.CandidatesByPriority | src/config.rs:168-172 | in every run candidates are tried by priority and configured position, no position twice |
| GatewayReports.EachPositionAskedOnce | src/handlers/chat.rs:171-179 | in every run a breaker has been asked exactly once for each position tried under its name: building lists asks nobody |
| GatewayReports.EveryAdmissionReports | src/handlers/embeddings.rs:104-189 | in every run, of the requests a breaker let through each is in its history as one success or one early failure, by its headers, except those that still wait or were dropped there; and every lost body or stream is in it as one more failure |
| GatewayBreakers.MoveKeepsInv | src/handlers/chat.rs:171-318 | every move keeps the joint invariant of handlers and breakers: histories, probes in flight, open responses, debts |
| GatewayRecovery.ProbesInFlight | src/router/circuit_breaker.rs:105-128 | in every run the unreported probes of the current episode are the slots in use plus one, at most max(1, half_open_max_calls) + 1 |
| GatewayRecovery.NoOrphanedProbe | src/handlers/chat.rs:176-221 | if no handler is dropped at the send await, a half-open breaker always has a request of this episode waiting for headers |
| GatewayDeadlines.LateEpisodeWasAbandoned | src/proxy/client.rs:43-48 | in every run, a half-open episode that outlasts the request timeout was opened by a request whose handler was dropped at the send await |
| GatewayDeadlines.EpisodeEndsInTime | src/proxy/client.rs:43-48 | if no handler is dropped there, every half-open episode is over within the request timeout of its beginning |
| GatewayDeadlines.NobodyOutlastsTimeout | src/proxy/client.rs:43-48 | in every run a request that waits for headers, reads a body or streams is within its request timeout |
| Gateway.TimeoutIsLongest | src/config.rs:81-83 | the request timeout of a name is the longest configured under it |
| GatewayRecovery.ReportEndsEpisode | src/router/circuit_breaker.rs:132-159 | every report adds one event to its own provider, leaves HalfOpen, frees all slots, and is a failure exactly by status |
| Gateway.VerdictByStatus | src/handlers/chat.rs:54-67 | by the number of the status alone: which count against the provider, which reject the request and which are accepted, for either handler |
| GatewayRecovery.BreakersReplayHistory | src/router/circuit_breaker.rs:105-159 | in every run each breaker is the replay of its history, so the laws of histories apply |
| GatewayRecovery.BrokenStreamsNeedConcurrency | src/handlers/chat.rs:221-252 | with failures after headers only, failure_count plus open responses is at most the peak of open responses; the breaker stays Closed while the peak is below max(1, threshold) |
| GatewayPeak.BoundIsAttained | src/handlers/chat.rs:221-252 | for every configuration some run, which takes no time, opens a given provider's breaker with max(1, threshold) broken streams and no other failure |
| GatewayRecovery.PeakIsTheMaximum | src/handlers/chat.rs:221-252 | the recorded peak and the count of early failures are what they are called |
| GatewayRecovery.CoolingAdmitsNobody | src/router/circuit_breaker.rs:105-159 | until t + cooldown no run sends a new request to a provider that failed at t and is Open |
| GatewayWedge.WedgedForever | src/router/circuit_breaker.rs:119-126 | half-open, no slot and nobody left to report: no continuation ever contacts the provider |
| GatewayWedge.OnlyCancellationWedges | src/handlers/chat.rs:176-221 | runs in which no handler is dropped at the send await never get there |
| GatewayWedge.RecoversUnlessWedged | src/router/circuit_breaker.rs:105-159 | in every reachable state some continuation, within all request timeouts, closes a provider's breaker if and only if it is not wedged |
| GatewayWedge.WedgeIsReachable | src/handlers/chat.rs:186-195 | for every configuration some run with dropped handlers, its requests trying the whole list in order and nothing in flight while time passes, wedges a given provider |
| GatewayLedger.LedgerBalances | src/middleware/rate_limit.rs:50-154 | in every run: capacity + inflow = tokens + outstanding reservations + final charges + the overflow of each step, max(0, tokens + inflow + handed back - capacity); tokens within bounds |
| GatewayLedger.ReservesExactly | src/handlers/chat.rs:111-117 | in every run a request passes the TPM bucket exactly if min(tokens + tpm * elapsed / 60, tpm) covers its estimate, and is else told the least whole number of seconds to wait |
| GatewayLedger.SettlementIsExact | src/middleware/rate_limit.rs:133-154 | in every run a settled request was settled by exactly one step, and charged the total if the reservation or the bucket at that moment covers it, the reservation if not, nothing without a report |
| GatewayLedger.FinishedIsSettled | src/handlers/chat.rs:226-311 | a finished request was settled unless it was refused or dropped before it reserved; it is charged nothing on a hit, a failure or a drop |
| GatewayLedger.MoveAdvances | src/handlers/chat.rs:111-148 | a reservation goes from none to held to settled and never back |
| GatewayLedger.SettledForever | src/middleware/rate_limit.rs:133-154 | a settled request keeps its charge in every continuation |
| GatewayAnswers.FailoverIsFirstDecisive | src/handlers/chat.rs:169-319 | in every run candidates are exactly those eligible when read, in failover order; each answer is that of the first decisive position, nothing is contacted after it and no position twice |
| GatewayAnswers.StatusDecidesAnswer | src/handlers/chat.rs:199-311 | in every run, 4xx other than 408 and 429 is the answer and nothing else a rejection; an accepted status, 200 among them, is the last and its own body is served or its stream opened |
| GatewayAnswers.LastErrorIsLastContact | src/handlers/chat.rs:192-206 | the error given when all have failed is of the last position that was contacted |
| GatewayAnswers.HitsAreSound | src/handlers/chat.rs:131-151 | in every run a body served from the cache was read from an upstream for a cacheable chat request with the same model and payload |
| GatewayAnswers.CacheServesLatest | src/handlers/chat.rs:272-278 | a body just read by a plain chat at temperature zero or below answers the next one with the same model and payload, unless evicted or overwritten in between |
| GatewayAnswers.MissGoesOn | src/handlers/chat.rs:131-153 | a request whose text the cache does not hold, or no longer holds, goes on to the upstreams |
| Similarity.CosineSimilarity | src/cache/semantic.rs:206-227 | the accumulating loop computes the cosine |
| Similarity.CauchySchwarz | src/cache/semantic.rs:211-219 | dot^2 is at most the product of the squared norms, for vectors of every length |
| Similarity.ClampIsIdle | src/cache/semantic.rs:221-226 | the quotient is within [-1, 1] already |
| Similarity.CosineSymmetric | src/cache/semantic.rs:206-227 | the similarity is symmetric |
| Similarity.CosineScaleInvariant | src/cache/semantic.rs:206-227 | positive scaling does not change it |
| Similarity.CosineOfSelf | src/cache/semantic.rs:206-227 | a vector with a non-zero component has similarity 1 with itself |
| Similarity.CosineOfNothing | src/cache/semantic.rs:207-226 | vectors of different lengths and the zero vector have similarity 0 |
| SemanticCache.SemanticCache.Lookup | src/cache/semantic.rs:114-164 | a hit is the earliest most similar entry that matches, is at most as old as the ttl and reaches the threshold; a miss means there is none |
| SemanticCache.SemanticCache.Insert | src/cache/semantic.rs:167-196 | when an entry is stored, skipped or the call panics; with room for one entry the store is the last min(n, max_entries) inserts since the last clear |
| SemanticCache.SemanticCache.Clear | src/cache/semantic.rs:199-202 | the store is empty afterwards and its history continues |
| SemanticCache.BestIsUnique | src/cache/semantic.rs:131-154 | a query has at most one best entry, so the answer is determined |
| SemanticCache.StoreIsRecentHistory | src/cache/semantic.rs:184-195 | for every history of inserts and clears, which the class keeps, the store is the last min(n, max_entries) inserts since the last clear |
| SemanticCache.ExpiredFormPrefix | src/cache/semantic.rs:139-142 | expired entries always form a prefix |

## Left out

- Rounding of floats, NaN, and wrap-around of the `u32` counters and `u64` sums: exact reals and unbounded counts.
- HTTP plumbing, authentication, error envelopes, tracing, metrics (only the chunk at which TTFT is recorded is kept), health endpoints, configuration loading and shutdown.
- The checks of `validate` (src/config.rs:120-165): only the facts it establishes are used.
- moka's time-to-live and eviction policy: any entry may disappear at any moment.
- Collisions of SHA-256.
- The two token estimates (src/handlers/chat.rs:108-109, src/handlers/embeddings.rs:42-51): any estimate that is not negative.
- The embedding backends and the JSON parser: parameters.
- HandlerBody.Handle: nothing else runs during the call, because a method cannot be interrupted; HandlerRuns joins it to Gateway, where calls interleave.
- HandlerRuns.RunEndsAsHandled: one run for each result, not all undisturbed runs; about a request that has passed the RPM middleware and calls that meet their request timeouts.
- HandlerRuns.StreamEndsAsRead: likewise, from the moment the stream has begun.
- HandlerBody.Stream: the callbacks act after the loop, with the clock readings of the reads that trigger them; they touch objects the loop does not read.
- FailoverLoop.Failover: nothing else runs between two breaker calls, and the error text is reduced to the position it speaks of.
- FailoverLoop.AttemptAt: replies are given in advance for each position.
- GatewayAnswers.CacheServesLatest: about a run in which the entry is neither evicted nor overwritten.
- SemanticCache.SemanticCache.Lookup: the embedding and the clock are read before the entries; an insert or clear that another task makes in between is seen as made before the call.
- SemanticCache.SemanticCache.Insert: asks for a clock that does not run backwards from one insert to the next, as readings taken under the write lock do not.
- SemanticCache.ExpiredFormPrefix: about histories whose creation times follow the order of inserts, which the class keeps.
- The connect timeout and the stream idle timeout as numbers: a connection may fail and a read may stall at any moment.
- The list of client credentials: any client name may appear.
