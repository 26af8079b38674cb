# Admission control of the proxy pool, verified

The pool sends HTTP requests through many proxies. Before a request leaves, it has passed a
chain of small stateful components: a bounded job queue, a health-aware rotation over the
proxies, a circuit breaker, a concurrency semaphore, a token bucket per proxy and a token
bucket per limited domain. This project models those components and proves what they
guarantee for every input, every timed run and every interleaving.
`dafny verify dfyconfig.toml` checks all of it.

## How it is organised

| files | what they hold |
|---|---|
| `TokenBucket.dfy` | the bucket as a value, the object that updates it in place, and bounds on what any timed run of calls obtains |
| `TokenBucketMachine.dfy` | the same bucket shared by any number of threads, one label per clock reading, load or compare-and-swap; the rate bound, the credit accounts, and lock freedom; a lone thread's run is the sequential call |
| `ConcurrentWindows.dfy` | exactly how many grants interleaved callers can obtain in a window, and when that exceeds what sequential callers can |
| `SlidingWindow.dfy` | the bucketed counter, with a ghost log of everything it was told, and its agreement with that log |
| `CircuitBreaker.dfy`, `BreakerRuns.dfy`, `BreakerLaws.dfy` | the breaker as a value and as an object over two windows; properties of whole runs of outcomes; what one outcome does, in plain counts |
| `ProxyClient.dfy`, `DomainLimiter.dfy` | semaphore, counters and reporting of one proxy; the map of domain buckets |
| `Selector.dfy`, `SelectionLaws.dfy` | the rotation as an object with a retry loop and undo, as a function of the proxies' states, and the laws of that function |
| `WorkerSystem.dfy`, `PoolSafety.dfy`, `PoolGuarantees.dfy`, `PoolAnswers.dfy` | the running pool as a transition system over any number of workers, proxies and jobs, in which each limiter is the many-threaded machine above; its invariant and its guarantees |
| `Shutdown.dfy`, `DomainWaits.dfy` | the work left in a pool, why waits for domain tokens end, termination of shutdown, and the final state |
| `SoloRuns.dfy` | an uninterrupted worker of the transition system does what the sequential specifications say, so that their laws carry over |
| `WorkerPool.dfy` | the pool object as one worker drives it, on the real selector, limiter and client objects |
| `Int64.dfy`, `Sums.dfy` | wrap-around, truncating division, totals |

Each object is proved against a value-level specification (its `View`, its log, or the
function of the proxies' states), and the run-level theorems are about that specification.

## Assumptions

- Times are nanoseconds. The sliding window and the breaker see a clock that never goes back
  and is never negative; each of their calls happens at one instant and is not interleaved
  with another call on the same object. The token bucket machine assumes nothing about the
  clock: readings may be stale, repeated or out of order.
- Refill arithmetic is the source's int64 arithmetic, overflow included, and the upper rate
  bounds hold in spite of overflow. The bound on refill loss holds as long as no single
  refill's product of elapsed time and rate has overflowed, however long the run; the bounds
  on waiting assume the same of the refill an empty bucket is waiting for.
- Error rates are reals instead of `float64`; counters other than the bucket's words and the
  ticket are unbounded integers.
- Where a threshold matters it satisfies `0 < degraded < failure <= 1`, which
  `rapidproxy/config.go:257-272` enforces.
- Clock readings, cancellations, the moment at which a context ends, and the reply of a proxy
  are parameters or free choices.

## Where the code and its documentation disagree

The model follows the code.

- `internal/ratelimit/domain_limiter.go:30` calls a domain's burst twice its rate. The call
  passes the rate as capacity and twice the rate as refill rate, so the burst is the rate and
  the sustained rate is twice it. All bounds are stated in a bucket's own capacity and rate.
- `rapidproxy/config.go:173-180` says that a dead proxy becomes healthy when the recovery
  timeout has passed. In the code the timeout only lets traffic through again;
  `BreakerRuns.LeavesDeadIff` says exactly which recorded successes end Dead, and
  `BreakerRuns.DeadPastTimeout` is a run that stays Dead past the timeout, a success included.
- A window count leaves out the bucket that starts at the instant of the query
  (`internal/ratelimit/sliding_window.go:66`). A failure on the first instant of a bucket is
  therefore not counted by the call that records it; `BreakerRuns.TripsIff` says exactly when
  this keeps a breaker alive.
- Over an arbitrary window the sequential bucket obeys a bound that interleaved callers can
  exceed, because a token is cut off at capacity only when it is added: credit that was
  claimed before the window or is claimed in it can be held back until the bucket has been
  emptied. `ConcurrentWindows.WindowGrantsIff` says exactly how many grants a window can see,
  from what the bucket and the threads hold when it opens, and
  `ConcurrentWindows.WindowExceededIff` exactly when the sequential bound is exceeded.

## Model

| member | source | states |
|---|---|---|
| `TokenBucketMachine.ConcurrentRateBound` | internal/ratelimit/token_bucket.go:44-62 | for any number of threads, interleaved at every clock reading, load and swap with arbitrary readings: 1e9 * grants <= 1e9 * capacity + rate * (lastRefill - t0), tokens never exceed capacity (nor go below 0, if capacity plus one int64 credit fits an int64), and tokens + grants + claimed + discarded = capacity + credited |
| `TokenBucketMachine.StepInv` | internal/ratelimit/token_bucket.go:93-130 | every atomic action keeps the accounts balanced and the credit paid for by time |
| `TokenBucketMachine.StepIsHonest` | internal/ratelimit/token_bucket.go:44-130 | a claim is given up only by adding all of it; tokens are discarded only into a bucket that is full afterwards, and exactly those that do not fit; a grant takes one token; a refusal means an empty bucket; no other thread is touched |
| `TokenBucketMachine.SwapSucceedsIff` | internal/ratelimit/token_bucket.go:112-128 | a swap succeeds exactly if the word is what the thread read; a failed one changes nothing, keeps the claim and reads again, except that a refill won by another thread is given up |
| `TokenBucketMachine.IntervalsCreditedOnce` | internal/ratelimit/token_bucket.go:111-115 | `lastRefill` never moves back; whenever it moves, exactly the interval moved over is credited, to the thread that won the swap |
| `TokenBucketMachine.RefillLossBounded` | internal/ratelimit/token_bucket.go:97-115 | after k refills of which none overflowed, in a run of any length, the ideal credit exceeds the actual one by less than k tokens and is less than twice it |
| `ConcurrentWindows.WindowGrantsIff` | internal/ratelimit/token_bucket.go:44-130 | from any reachable state with an idle thread to refill and one to take, some run whose clock readings are in order and in [t1, t2] grants k tokens if and only if k is at most the tokens present, plus the claims (each cut off at capacity), plus the gain (each step cut off) of some chain of refills won with readings that threads hold already or take in the window |
| `ConcurrentWindows.WindowExceededIff` | internal/ratelimit/token_bucket.go:44-130 | some such run exceeds the sequential bound of the window if and only if some chain supplies as much |
| `ConcurrentWindows.InstantGrantsIff` | internal/ratelimit/token_bucket.go:111-130 | at one instant, with no reading held back: exactly tokens + claims + one refill, each part cut off at capacity; more than a full bucket is granted exactly if these add up to more |
| `ConcurrentWindows.UnrefilledGrantsIff` | internal/ratelimit/token_bucket.go:111-130 | before the next refill is won exactly the tokens present and the claims, each cut off at capacity, can be granted, whatever the clock readings |
| `ConcurrentWindows.RunSupply` | internal/ratelimit/token_bucket.go:93-130 | whatever the threads do, a run in the window obtains no more than the supply of the chain of refills it wins |
| `ConcurrentWindows.ConcurrentWindowBound` | internal/ratelimit/token_bucket.go:111-130 | from any reachable state on, grants are within the tokens at hand and what the refills won from then on earn |
| `ConcurrentWindows.StalledCreditExceedsWindow` | internal/ratelimit/token_bucket.go:111-130 | a reachable state with stalled credit from which a bucket of capacity 1 can grant twice at one instant |
| `ConcurrentWindows.NewBucketExceedsWindow` | internal/ratelimit/token_bucket.go:111-130 | the same from a new bucket, with nothing claimed |
| `TokenBucketMachine.SoloTryAcquire` | internal/ratelimit/token_bucket.go:44-62 | from any state, a thread can run a whole call alone, and it leaves exactly the bucket and answer of the sequential TryAcquire |
| `TokenBucketMachine.AtomicProgress` | internal/ratelimit/token_bucket.go:49-61 | an action finishes a stage of its call or freshens a stale value; a swap fails only because another thread's succeeded |
| `TokenBucketMachine.LockFree` | internal/ratelimit/token_bucket.go:49-61 | the number of actions before some call must return is bounded by the state, however threads are interleaved |
| `TokenBuckets.AnyWindowBound` | internal/ratelimit/token_bucket.go:44-62 | over every ordered run of calls and every window [t1, t2]: 1e9 * grants < 1e9 * (capacity + 1) + rate * (t2 - t1) |
| `TokenBuckets.GrantsArePaidFor` | internal/ratelimit/token_bucket.go:93-130 | grants up to t2 are covered by tokens present, credit pending at t, and what accrues from t on |
| `TokenBuckets.WindowBoundIsTight` | internal/ratelimit/token_bucket.go:97-109 | the extra token is real: capacity 1 at one token a second can grant twice within a nanosecond |
| `TokenBuckets.RefillExact` | internal/ratelimit/token_bucket.go:93-130 | in plain arithmetic, without overflow: a refill adds floor(elapsed * rate / 1e9) tokens up to capacity, whatever the bucket holds, and moves `lastRefill` to now exactly if that is at least one |
| `TokenBuckets.CallExact` | internal/ratelimit/token_bucket.go:44-62 | in plain arithmetic, without overflow: a call is granted exactly if a token is present or earned, and leaves min(capacity, tokens + earned) less the one it grants |
| `TokenBuckets.RefusedIff` | internal/ratelimit/token_bucket.go:44-62 | without overflow a call is refused exactly when the bucket is empty and less than one token has been earned, and then changes nothing |
| `TokenBuckets.TryAcquireKeeps` | internal/ratelimit/token_bucket.go:44-62 | capacity and rate are unchanged, tokens stay within bounds, `lastRefill` moves only forward |
| `TokenBuckets.NewTokensExact` | internal/ratelimit/token_bucket.go:102-105 | without overflow less than one token of the elapsed time's credit is dropped |
| `TokenBuckets.Create` | internal/ratelimit/token_bucket.go:21-39 | the bucket is full and well configured; a non-positive capacity becomes 10, a non-positive rate the capacity |
| `TokenBuckets.TokenBucket.constructor` | internal/ratelimit/token_bucket.go:21-39 | builds the bucket of `Create` |
| `TokenBuckets.TokenBucket.MaybeRefill` | internal/ratelimit/token_bucket.go:93-130 | the in-place update is the specification's refill |
| `TokenBuckets.TokenBucket.TryAcquire` | internal/ratelimit/token_bucket.go:44-62 | the in-place update and the answer are the specification's |
| `TokenBuckets.TokenBucket.Acquire` | internal/ratelimit/token_bucket.go:66-80 | whenever the call returns: it ends with the first attempt that is granted or whose pause the context ends, and leaves the bucket as those attempts do |
| `TokenBuckets.WaitsAreBounded` | internal/ratelimit/token_bucket.go:66-80 | a lone caller with real pauses and without overflow is granted at the first attempt at which a token is present or earned, after at most ceil(100 / rate) pauses, and refusals leave the bucket as it was |
| `TokenBuckets.TokenBucket.Available` | internal/ratelimit/token_bucket.go:133-136 | refills and reports the tokens |
| `TokenBuckets.TokenBucket.Reset` | internal/ratelimit/token_bucket.go:149-152 | full and refilled now, configuration unchanged |
| `TokenBuckets.TokenBucket.SetCapacity` | internal/ratelimit/token_bucket.go:155-171 | rejects non-positive values, cuts the tokens to the new capacity, changes nothing else |
| `TokenBuckets.TokenBucket.SetRefillRate` | internal/ratelimit/token_bucket.go:174-179 | rejects non-positive values, changes nothing else |
| `SlidingWindows.SlidingWindow.constructor` | internal/ratelimit/sliding_window.go:19-32 | empty log, defaults for non-positive sizes |
| `SlidingWindows.SlidingWindow.Increment` | internal/ratelimit/sliding_window.go:35-37 | logs one event now |
| `SlidingWindows.SlidingWindow.IncrementBy` | internal/ratelimit/sliding_window.go:40-49 | logs the event; at most ceil(window / bucket) + 1 buckets remain, the present one among them, in every run |
| `SlidingWindows.SlidingWindow.Cleanup` | internal/ratelimit/sliding_window.go:99-108 | exactly the buckets before the cutoff's are deleted, the others untouched |
| `SlidingWindows.SlidingWindow.Count` | internal/ratelimit/sliding_window.go:52-54 | equals the count over the full log, as if no bucket had ever been cleaned up |
| `SlidingWindows.SlidingWindow.CountSince` | internal/ratelimit/sliding_window.go:57-72 | the total of the kept buckets strictly between the two times; the full log's count if the query does not reach behind the last cleanup |
| `SlidingWindows.SlidingWindow.Reset` | internal/ratelimit/sliding_window.go:85-90 | forgets the log |
| `SlidingWindows.CountSandwich` | internal/ratelimit/sliding_window.go:57-72 | a count lies between the number of events of the last window less one bucket (present instant excluded) and that of the last window |
| `SlidingWindows.CleanedIsNeverCounted` | internal/ratelimit/sliding_window.go:99-108 | a bucket that cleanup may delete is outside every window queried later, negative cutoffs included |
| `SlidingWindows.KeySpan` | internal/ratelimit/sliding_window.go:93-95 | how many bucket keys a window spans |
| `BreakerRuns.TripsIff` | internal/health/circuit_breaker.go:95-106 | on empty windows, a run of failures within the window less one bucket ends Dead if and only if there are at least minRequests of them and either the last is off a bucket boundary or minRequests of them came strictly before it |
| `BreakerLaws.FailureExact` | internal/health/circuit_breaker.go:95-106 | with R requests and F failures counted after the new one: Dead exactly if R >= minRequests, R > 0 and F >= failureThreshold * R; else Degraded, from Healthy, exactly if R >= minRequests, R > 0 and F >= degradedThreshold * R; else unchanged; every time stamp and the log |
| `BreakerLaws.SuccessExact` | internal/health/circuit_breaker.go:84-92 | a breaker that is not Healthy recovers exactly if F <= degradedThreshold * R and R >= minRequests / 2, and is then empty; otherwise only the success is added |
| `BreakerLaws.RecoveryForgets` | internal/health/circuit_breaker.go:204-215 | only a success turns a breaker Healthy, and it empties both windows |
| `BreakerLaws.LogIsSinceRecovery` | internal/health/circuit_breaker.go:204-221 | after every run the windows have been told exactly what was recorded since the latest recovery or reset |
| `BreakerLaws.NoPrematureTrip` | internal/health/circuit_breaker.go:151-177 | over every run, recoveries included: a move to Degraded or Dead is made by a failure, after at least minRequests outcomes since the latest recovery, of which the matching threshold's share of minRequests failed |
| `BreakerLaws.MixedTripsIff` | internal/health/circuit_breaker.go:151-161 | over every mixed run whose outcomes since the latest recovery lie within the window less one bucket: a failure kills exactly if the outcomes seen (all, or on a bucket boundary those before it) are enough and the failures among them reach the threshold's share |
| `BreakerRuns.LogWithinRun` | internal/health/circuit_breaker.go:84-106 | the windows never hold more outcomes or failures than were recorded since they were emptied |
| `BreakerRuns.DeadIntervalExact` | internal/health/circuit_breaker.go:109-118 | over every run, a breaker is healthy at t exactly if it is not Dead or t minus its latest entry into Dead exceeds the timeout; failures in between do not extend it |
| `BreakerRuns.LeavesDeadIff` | internal/health/circuit_breaker.go:180-215 | over every run, a Dead breaker has left Dead at some point if and only if some recorded success, counted with what the windows held, finds the error rate at most the degraded threshold and at least half of minRequests |
| `BreakerRuns.DeadPastTimeout` | internal/health/circuit_breaker.go:84-92 | a run with default settings that is still Dead past the timeout and after a success |
| `BreakerRuns.DeadRecoversThroughHealthy` | internal/health/circuit_breaker.go:164-168 | no run leads from Dead to Degraded without passing through Healthy |
| `BreakerRuns.ErrorRateWellFormed` | internal/health/circuit_breaker.go:140-148 | at every instant failures are between 0 and requests and the rate is between 0 and 1 |
| `BreakerRuns.ErrorRateMonotone` | internal/health/circuit_breaker.go:84-106 | at one instant a recorded failure never lowers the rate and a recorded success never raises it |
| `CircuitBreakers.CircuitBreaker.constructor` | internal/health/circuit_breaker.go:60-81 | Healthy, empty windows |
| `CircuitBreakers.CircuitBreaker.RecordSuccess` | internal/health/circuit_breaker.go:84-92 | the whole new state, windows included, is the specification's |
| `CircuitBreakers.CircuitBreaker.RecordFailure` | internal/health/circuit_breaker.go:95-106 | the whole new state, windows included, is the specification's |
| `CircuitBreakers.CircuitBreaker.IsHealthy` | internal/health/circuit_breaker.go:109-118 | false exactly while Dead and within the timeout |
| `CircuitBreakers.CircuitBreaker.GetErrorRate` | internal/health/circuit_breaker.go:140-148 | the ratio of the two full-log counts |
| `CircuitBreakers.CircuitBreaker.ShouldTrip` | internal/health/circuit_breaker.go:151-161 | decided on the full logs |
| `CircuitBreakers.CircuitBreaker.ShouldDegrade` | internal/health/circuit_breaker.go:164-177 | decided on the full logs, only from Healthy |
| `CircuitBreakers.CircuitBreaker.ShouldRecover` | internal/health/circuit_breaker.go:180-195 | decided on the full logs, never from Healthy |
| `CircuitBreakers.CircuitBreaker.TransitionTo` | internal/health/circuit_breaker.go:204-215 | a change stamps the time and, towards Healthy, empties both windows; no change does nothing |
| `CircuitBreakers.CircuitBreaker.Reset` | internal/health/circuit_breaker.go:218-221 | empties both windows, keeps the state |
| `DomainLimiters.NewDomainLimiter` | internal/ratelimit/domain_limiter.go:16-34 | null for no limits; otherwise one bucket of its own for exactly the domains with a positive limit, of capacity rps and of rate 2 * rps as an int64 (rps itself where that product wraps to a non-positive value) |
| `DomainLimiters.DomainBucketExact` | internal/ratelimit/domain_limiter.go:30 | every field of the bucket for a limit, the wrapped product included |
| `DomainLimiters.DomainRate` | internal/ratelimit/domain_limiter.go:30 | in any window of sequential calls, grants for a limited domain stay below rps + 1 and 2 * rps a second |
| `DomainLimiters.TryAcquire` | internal/ratelimit/domain_limiter.go:38-52 | granted at once where no limit applies, otherwise as the domain's bucket; no other bucket changes |
| `DomainLimiters.Acquire` | internal/ratelimit/domain_limiter.go:56-70 | succeeds at once where no limit applies, and otherwise ends as the blocking call of the domain's bucket; no other bucket changes |
| `ProxyClients.ProxyClient.constructor` | internal/connection/client.go:59-77 | all counters zero, the semaphore empty, the last success now |
| `ProxyClients.ProxyClient.TryAcquireConcurrency` | internal/connection/client.go:197-207 | succeeds exactly if a slot is free, and then occupies one |
| `ProxyClients.ProxyClient.ReleaseConcurrency` | internal/connection/client.go:210-215 | frees the caller's slot |
| `ProxyClients.ProxyClient.Do` | internal/connection/client.go:80-101 | one request counted, once as success or failure, with the matching time stamp, and the breaker told the same; status 400 and above is a failure for the breaker but not for the caller |
| `ProxyClients.ProxyClient.RecordSuccess` | internal/connection/client.go:104-112 | counters and breaker after a success |
| `ProxyClients.ProxyClient.RecordFailure` | internal/connection/client.go:115-131 | counters and breaker after a failure |
| `SelectionLaws.SelectIsFirstQualified` | internal/selector/selector.go:95-135 | the rotation chooses the first proxy in cyclic order that qualifies when its round comes; "all busy" only if no round found one, "cancelled" only if none had before; only the chosen proxy changes, by one slot and one token |
| `SelectionLaws.QualifiesIff` | internal/selector/selector.go:108-126 | qualifying, in the fields of breaker, semaphore and bucket: not Dead or past the timeout; a free slot; a token present or earned |
| `SelectionLaws.TakenExact` | internal/selector/selector.go:114-130 | the chosen proxy loses one slot and one of the tokens then in its bucket, and nothing else |
| `SelectionLaws.VisitDecides` | internal/selector/selector.go:105-131 | a proxy passes the three checks exactly if it qualifies; one that fails is left exactly as it was |
| `SelectionLaws.RotationIsPermutation` | internal/selector/selector.go:92-106 | n rounds look at each of n proxies exactly once |
| `SelectionLaws.AllBusyMeansNoneQualifies` | internal/selector/selector.go:133-135 | with a full rotation, "all busy" means that no proxy at all qualifies |
| `SelectionLaws.TurnsAreEven` | internal/selector/selector.go:88-136 | in any m consecutive calls in which the proxy whose turn it is accepts, Select returns each of n proxies floor(m/n) or ceil(m/n) times, if the counter does not wrap |
| `SelectionLaws.EligibleIsChosen` | internal/selector/selector.go:88-136 | a proxy that stays eligible is chosen at least once in n consecutive calls, whatever happens to the others, if the counter does not wrap |
| `SelectionLaws.RotationSeamlessIff` | internal/selector/selector.go:92 | the rotation continues across a ticket exactly if the 64-bit counter does not wrap there or n divides 2^64 |
| `Selectors.NewRoundRobinSelector` | internal/selector/selector.go:62-80 | an error exactly for no clients; zero retries means one per client |
| `Selectors.TryClient` | internal/selector/selector.go:108-126 | the three checks in place, with the slot given back on a refused token |
| `Selectors.RoundRobinSelector.Select` | internal/selector/selector.go:88-136 | draws the next ticket, leaves every proxy as the specification's rotation does, and keeps the statistics consistent |
| `Selectors.RoundRobinSelector.Rotate` | internal/selector/selector.go:95-135 | the retry loop computes the specification's rotation |
| `PoolSafety.StepInv` | internal/worker/pool.go:114-180 | every action of the running pool keeps slots owned, jobs conserved, counters consistent and every request paid for, and changes no configuration |
| `PoolSafety.RunInv` | internal/worker/pool.go:88-180 | so does every run |
| `PoolGuarantees.SlotOwnership` | internal/worker/pool.go:114-180 | in every reachable state a semaphore's occupancy is the number of workers that hold a slot of that proxy, and at most its capacity |
| `PoolGuarantees.JobConservation` | internal/worker/pool.go:88-191 | every accepted job is in exactly one place, once: queued, with one worker, or answered; the queue stays within its size; total = successes + failures + jobs not counted yet; successes and failures count the answers of each kind |
| `PoolAnswers.AnswersAreTrue` | internal/worker/pool.go:120-180 | in every run a job is answered as a success exactly if the proxy replied to it with a status |
| `PoolAnswers.FirstInFirstOut` | internal/worker/pool.go:97-109 | in every run the jobs taken are the first ones submitted, in order, and the queue holds the rest in order |
| `PoolGuarantees.NeverBlocks` | internal/worker/pool.go:114-180 | releasing a slot and sending a result never block: a worker can always act unless it has exited or idly waits for a job, shutdown or closing |
| `PoolGuarantees.EndToEndRate` | internal/worker/pool.go:119-149 | requests sent through a proxy, and through it to a limited domain, stay within what the bucket concerned may have granted since it was made, under every interleaving |
| `PoolGuarantees.TotalRate` | internal/selector/selector.go:120-130 | all requests together stay within the sum over the proxies of capacity and earned credit |
| `DomainWaits.ShutdownTerminates` | internal/worker/pool.go:210-219 | from any reachable state, once no jobs are submitted, all workers together take at most `Remaining` further actions, retries for domain tokens included, under every interleaving |
| `DomainWaits.BudgetShrinks` | internal/ratelimit/token_bucket.go:66-80 | no action of any worker enlarges the pool's budget of retries, and a retry uses some of it up |
| `DomainWaits.OwnRank` | internal/ratelimit/token_bucket.go:66-130 | a thread that was refused and paused comes strictly closer to never being refused again, unless some thread is granted a token |
| `DomainWaits.OthersRank` | internal/ratelimit/token_bucket.go:93-130 | an action that grants nothing sets no other thread back, unless it wins a refill |
| `Shutdown.WorkProgress` | internal/worker/pool.go:95-111 | every action of a worker other than a retry for a domain token brings the pool closer to rest |
| `Shutdown.RestAfterStop` | internal/worker/pool.go:210-219 | a stopped pool is at rest exactly if all workers have exited; then every slot is free, every accepted job is answered once or still queued, and the counters agree |
| `Shutdown.RestWhileOpen` | internal/worker/pool.go:95-111 | a running pool is at rest exactly if its workers are idle and its queue is empty; then every slot is free and every accepted job has been answered once |
| `SoloRuns.SoloStart` | internal/worker/pool.go:114-120 | an uninterrupted worker counts the job and draws the next 64-bit ticket |
| `SoloRuns.SoloVisit` | internal/selector/selector.go:104-131 | one uninterrupted round has the effect of the three checks |
| `SoloRuns.SoloSelect` | internal/selector/selector.go:95-135 | an uninterrupted selection, limiter calls run action by action, ends exactly as the sequential rotation |
| `SoloRuns.SoloDomainAttempt` | internal/worker/pool.go:136-147 | one uninterrupted attempt at a domain limit asks the domain's bucket exactly as TryAcquire |
| `SoloRuns.SoloRequest` | internal/worker/pool.go:149-180 | the request is sent once, the breaker told once, the job answered once, the slot freed, nothing else changed |
| `SoloRuns.SoloUnlimited` | internal/worker/pool.go:137-149 | without a limit for its domain the job's request goes out at once |
| `SoloRuns.SoloTimeout` | internal/worker/pool.go:136-147 | a job whose context ends in the domain wait is answered as failed, without a request, with its slot free and the bucket's tokens untouched |
| `SoloRuns.SubmitExact` | internal/worker/pool.go:184-191 | a new job is accepted exactly while the queue is open and has room, and is then last |
| `SoloRuns.StopExact` | internal/worker/pool.go:210-215 | stopping ends the context, closes the queue for every job, and touches nothing else |
| `SoloRuns.SoloRefusal` | internal/worker/pool.go:120-129 | a job without a proxy is answered as failed, once |
| `WorkerPools.WorkerPool.constructor` | internal/worker/pool.go:63-77 | an empty, open pool |
| `WorkerPools.WorkerPool.Submit` | internal/worker/pool.go:184-191 | accepted exactly if the queue is open and has room; refused, or a panic if it is closed, without effect otherwise |
| `WorkerPools.WorkerPool.SubmitBlocking` | internal/worker/pool.go:195-206 | accepted, or without effect if a context ends or the closed queue panics first |
| `WorkerPools.WorkerPool.Stop` | internal/worker/pool.go:210-215 | cancelled and closed, nothing lost; a panic the second time |
| `WorkerPools.WorkerPool.WorkerTurn` | internal/worker/pool.go:95-111 | leaves on shutdown or a drained queue, otherwise executes the head of the queue and answers it with what came of it, all effects included; in particular, if the proxy whose turn it is accepts, the answer is that proxy's reply, its requests grow by one and its breaker is told; no job is lost or answered twice |
| `WorkerPools.TurnServes` | internal/worker/pool.go:114-180 | an execution that begins at a proxy whose breaker, slots, bucket and domain limits allow it is served by that proxy |
| `WorkerPools.WorkerPool.ExecuteJob` | internal/worker/pool.go:114-180 | one answer, explained by the selection, the wait and the reply; the proxies end as selection, report and release leave them, so that every semaphore ends as it began on all four ways out; a timeout exactly if the context ended the wait; at most the selected proxy sees a request and only its domain bucket changes |
| `WorkerPools.WorkerPool.Serve` | internal/worker/pool.go:136-161 | the wait at the domain's bucket, and after it one request and one report to the breaker; a timeout exactly if the context ended the wait |
| `WorkerPools.WorkerPool.Finish` | internal/worker/pool.go:134-180 | the outcome counted and answered once, then the held slot freed |
| `WorkerPools.ScanSlots` | internal/selector/selector.go:114-130 | a selection takes one slot of the selected proxy and no other |

## Left out

- TokenBuckets.AnyWindowBound: about one caller at a time; `ConcurrentWindows` says what interleaved callers can do.
- ConcurrentWindows.WindowGrantsIff: assumes two idle threads, one to refill and one to take, and a capacity that leaves room for one credit below 2^63; `ConcurrentWindows.RunSupply`, the upper half, needs no idle thread.
- TokenBuckets.TokenBucket.Acquire: a call that never returns, because no token is ever granted and its context never ends, has no final state and is not covered; contended waits are treated in `DomainWaits`.
- DomainWaits.ShutdownTerminates: assumes the 10 ms pause before each retry and, while a domain bucket is empty, a refill product that fits an int64; it bounds the workers' actions, and takes for granted that a proxy's reply arrives.
- Selectors.NewRoundRobinSelector: takes different proxies, each with a limiter of its own, which is what rapidproxy/pool.go:74-78 builds; a proxy listed twice is not modelled.
- CircuitBreakers.CircuitBreaker.RecordFailure: one call happens at one instant; interleavings inside a breaker call, where the two windows are updated under separate locks, are not modelled.
- BreakerRuns.TripsIff: about failures within one window less one bucket, as is BreakerLaws.MixedTripsIff; outcomes spread wider are covered by BreakerLaws.FailureExact, call by call.
- ProxyClients.ProxyClient.constructor: limiter, breaker and semaphore are given at construction; the setters that attach them later, and the stored last error, are not modelled.
- WorkerPools.WorkerPool.Submit: a job value stands for one submission, with a result channel of its own; sending the same channel through the pool twice is not modelled.
- WorkerPools.WorkerPool.Stop: the wait for the workers is not a step of the object; that they all finish is `DomainWaits.ShutdownTerminates` and `Shutdown.RestAfterStop`. In the running pool nothing is submitted to a closed queue.
- HTTP, transports, TLS, connection reuse, idle cleanup and reading bodies: a request is a step with a given reply.
- Concurrent use of SetCapacity, SetRefillRate and Reset on a bucket: plain stores that can break the accounts; they are modelled for one caller.
- AcquireWithTimeout: Acquire with a context that ends after a time.
- A queue of size 0, where the channel is a rendezvous: submission is then never enabled in the model.
- The selector's statistics in the running pool, Stats and metrics everywhere, configuration defaults and DoBatch: easy members.
- The proxy's own state field, which nothing in the modelled code changes after initialisation.
