# ratelimiter, modelled in Dafny

A model of the Go package `ratelimiter`: a client-side token-bucket rate
limiter. A `RateLimiter` holds a bucket (a buffered channel) of capacity
`Quota`. The bucket is set up lazily on first use. From then on, a refill
goroutine adds one token per `Rate`. If `Window = Quota * Rate` is non-zero, a
reset goroutine empties the bucket once per window and restarts the usage
counters. `Throttle` takes one token. `GetThrottleChannel` hands out the bucket
itself. `TokensLeft` reports how many tokens the bucket holds.

The model also covers the package's test-side reference counter,
`HitTracker`. It is a fixed-window quota counter: a run of hits is too many when
its remaining quota drops below zero.

Files:

- `bucket.dfy` (module `Bucket`): the channel as an object, `TokenBucket`, with
  a capacity and a count. It has a blocking send and receive, each enabled only
  when it can proceed, and the non-blocking receive of a `select` with a
  `default` branch.
- `limiter_model.dfy` (module `LimiterModel`): the limiter's fields as a value
  `Limiter`, with one function per operation. `Op` and `Run` describe any
  interleaving of calls and goroutine steps. The lemmas prove the capacity bound,
  idempotent setup and discard-on-reset.
- `rate_limiter.dfy` (module `RateLimiting`): the class `RateLimiter`. Its
  methods update its fields in place. Each method is specified by the
  `LimiterModel` function applied to `Snapshot()`. There is one `while` loop:
  the drain loop of `reset`.
- `hit_tracker.dfy` (module `HitTracking`): Go's truncating duration division,
  the tracker as a value with `HitStep`, the lemmas about runs of hits in one
  window, and the class `HitTracker`.

Time is an integer count of nanoseconds passed in as `now`. In the limiter, a
`rateLimitStart` of 0 stands for Go's zero `time.Time` before setup. In the
tracker, the `FirstHit` zero time is the constructor `Stamp.NoHit`, and a
recorded first hit is `HitAt(t)`. The clock, sleeping and logging are outside
the model.

`ratelimiter.go:29` declares `NewRateLimiter(quota, rate, name)` with three
parameters. `ratelimiter_test.go:38` calls it with two. The model follows the
declaration: `name` is a parameter that is stored and has no effect on
behaviour.

## Model

| member | source | states |
|---|---|---|
| `LimiterModel.New` | ratelimiter.go:29-32 | a new limiter stores quota and rate, sets window = quota * rate, has no bucket, and satisfies the invariant |
| `LimiterModel.Setup` | ratelimiter.go:34-48 | setup on a limiter without a bucket creates an empty one, sets the window start to `now`, starts the refill goroutine, and starts the reset goroutine only for a non-zero window; on a limiter that has a bucket it changes nothing; it never touches quota, rate, window, name or the usage count, and it keeps the invariant |
| `LimiterModel.SetupIdempotent` | ratelimiter.go:35-47 | a second setup, at any later time, leaves the limiter as it was after the first |
| `LimiterModel.UseToken` | ratelimiter.go:50-52 | a receive, enabled only on a non-empty bucket, removes exactly one token, changes nothing else, and keeps occupancy within [0, quota] |
| `LimiterModel.Refill` | ratelimiter.go:76-81 | a refill step, enabled only when the bucket is not full, adds exactly one token, changes no other field, and keeps occupancy within [0, quota] |
| `LimiterModel.Throttle` | ratelimiter.go:56-59 | after setup, a token is taken exactly when the bucket is non-empty; if so, occupancy drops by one and the usage count rises by one; otherwise the state is that after setup (the call would block); quota, rate and window never change |
| `LimiterModel.Reset` | ratelimiter.go:83-94 | after a reset the bucket is empty, the usage count is 0 and the window starts at `now`; quota, rate, window and the lifecycle flags are unchanged, and the invariant is kept |
| `LimiterModel.TokensLeft` | ratelimiter.go:96-99 | the result is the bucket's occupancy after setup, within [0, quota]; the state is exactly that after setup, so the bucket and counters of an initialized limiter are unchanged |
| `LimiterModel.Apply` | ratelimiter.go:34-99 | each call, channel receive, refill step or reset step keeps the invariant and the configuration; a channel receive on an empty bucket or one not yet set up, a refill step on a full bucket or before the refill goroutine started, and a reset step before the reset goroutine started each leave the limiter unchanged |
| `LimiterModel.RunKeepsInv` | ratelimiter.go:34-99 | every interleaving of calls and goroutine steps keeps the invariant, so occupancy stays within [0, quota] |
| `LimiterModel.OccupancyBounded` | ratelimiter.go:36 | from a new limiter, whatever happens, the bucket's occupancy is never negative and never above quota |
| `LimiterModel.UsageBoundedByRefills` | ratelimiter.go:56-81 | while no reset happens, tokens counted as used plus tokens in the bucket grow by at most one per refill step |
| `LimiterModel.GrantsSinceResetBounded` | ratelimiter.go:83-94 | after a reset, until the next one, the tokens granted through Throttle plus those still in the bucket never exceed the refills made since the reset; no unused token survives the reset |
| `RateLimiting.RateLimiter.Valid` | ratelimiter.go:19-27 | the object invariant implies the value invariant of its snapshot: a bucket of capacity quota, the goroutines started with it, and window = quota * rate |
| `RateLimiting.RateLimiter.constructor` | ratelimiter.go:29-32 | the new object has no bucket, and its fields are those of `LimiterModel.New` |
| `RateLimiting.RateLimiter.Setup` | ratelimiter.go:34-48 | the new state is `LimiterModel.Setup` of the old one; an existing bucket is kept, and a missing one is freshly allocated |
| `RateLimiting.RateLimiter.UseToken` | ratelimiter.go:50-52 | the new state is `LimiterModel.UseToken` of the old one |
| `RateLimiting.RateLimiter.Throttle` | ratelimiter.go:56-67 | the new state and the `acquired` flag are `LimiterModel.Throttle` of the old state; the bucket is the existing one, or a fresh one on the first call |
| `RateLimiting.RateLimiter.GetThrottleChannel` | ratelimiter.go:71-74 | returns the limiter's bucket after setup; every call after the first returns the same object, and only the first allocates it |
| `RateLimiting.RateLimiter.MakeToken` | ratelimiter.go:76-81 | the new state is `LimiterModel.Refill` of the old one |
| `RateLimiting.RateLimiter.Reset` | ratelimiter.go:83-94 | the drain loop terminates and leaves the state `LimiterModel.Reset` of the old one (empty bucket, usage 0, window start `now`), with the same bucket object |
| `RateLimiting.RateLimiter.TokensLeft` | ratelimiter.go:96-99 | returns the occupancy after setup, within [0, quota]; the new state and result are `LimiterModel.TokensLeft` of the old state |
| `Bucket.TokenBucket.constructor` | ratelimiter.go:36 | `make(tokenBucket, n)` gives an empty channel of capacity n |
| `Bucket.TokenBucket.Send` | ratelimiter.go:78 | a send on a bucket that is not full adds one token and keeps count within capacity |
| `Bucket.TokenBucket.Receive` | ratelimiter.go:51 | a receive on a non-empty bucket removes one token |
| `Bucket.TokenBucket.TryReceive` | ratelimiter.go:86-88 | the non-blocking receive succeeds exactly when the bucket is non-empty, and removes one token when it does |
| `HitTracking.TruncDiv` | ratelimiter_test.go:28 | Go's duration division: the quotient's magnitude is the floor of the magnitudes' quotient, and a non-zero quotient is negative exactly when the operands' signs differ |
| `HitTracking.WindowIndex` | ratelimiter_test.go:27-28 | for a positive window size and a hit no earlier than the first, the index k satisfies k * size <= elapsed < (k + 1) * size |
| `HitTracking.NewTracker` | ratelimiter_test.go:17-19 | a new tracker has quota and remaining quota both q, window size w, window 0 and no first hit |
| `HitTracking.HitStep` | ratelimiter_test.go:23-34 | a hit records the first hit only once, moves to the window the hit falls in, leaves quota − 1 on entering a new window and one less than before otherwise, never changes quota or window size, and, on a tracker whose remaining quota does not exceed its quota (as every tracker built by `NewTracker`), leaves at most quota − 1 remaining |
| `HitTracking.HitsKeepBound` | ratelimiter_test.go:23-34 | for a tracker whose remaining quota does not exceed its quota (as every tracker built by `NewTracker`), over any sequence of hits quota and window size stay fixed, the remaining quota never exceeds the quota, and after at least one hit it is at most quota − 1 |
| `HitTracking.HitsInCurrentWindow` | ratelimiter_test.go:29-33 | k hits that all fall in the current window leave the remaining quota k lower and change nothing else |
| `HitTracking.NewWindowRun` | ratelimiter_test.go:23-34 | k hits that open a new window and stay in it leave quota − k, so the overshoot condition holds exactly when k > quota |
| `HitTracking.FreshWindowRun` | ratelimiter_test.go:45-53 | on a new tracker, k hits within one window size of the first leave quota − k, so `check` reports an overshoot exactly when k > quota |
| `HitTracking.HitTracker.constructor` | ratelimiter_test.go:17-19 | the new object's fields are those of `NewTracker` |
| `HitTracking.HitTracker.Hit` | ratelimiter_test.go:23-34 | the in-place update leaves the fields equal to `HitStep` of the old ones |

## Left out

- Goroutines, scheduling and interleaving: the infinite loops of `makeTokens`
  and of the reset goroutine are modelled as single steps (`MakeToken`,
  `Reset`). Which interleavings happen is left open: `LimiterModel.Run`
  accepts any sequence of steps.
- Blocking: a send on a full bucket and a receive on an empty one are
  preconditions of `Send`, `Receive`, `UseToken` and `MakeToken`, and are
  no-ops in `LimiterModel.Apply`. They are not modelled as waiting.
- RateLimiting.RateLimiter.Throttle: where the Go call blocks on an empty
  bucket until a refill arrives, the method returns `acquired == false` after
  setup. The caller's retry is a later call.
- `time.Now`, `time.Since` and `time.Sleep`: time is passed in as `now`. Go's
  `Hit` reads the clock twice on the first hit (`time.Now` at
  ratelimiter_test.go:25, `time.Since` at :27); the model uses one `now`, so the
  first hit's elapsed time is exactly 0. The real-time facts cannot be stated without a clock: refill spacing of at least
  `Rate`, the window period, the paced elapsed times of the tests, and the
  60 ms jitter check in `check`.
- The data race on the `Tokens == nil` test in `setup`, and the races on
  `TokensUsed` and `RateLimitStart` between `Throttle` and `reset`: these are
  concurrency effects.
- Logging with `log.Printf` in `Throttle` and `reset`, including the computed
  "remaining" and "resets at" values: output only.
- A quota of 0 makes an unbuffered channel. There a receive can meet a
  pending send directly. The model gives such a bucket capacity 0 and never
  lets a token through.
- A negative quota makes `make` panic: `Setup`, `Throttle`,
  `GetThrottleChannel` and `TokensLeft` require `quota >= 0`.
- A zero `WindowSize` makes the division at ratelimiter_test.go:28 panic:
  `TruncDiv`, `WindowIndex`, `HitStep`, `Hits` and `HitTracker.Hit` require a
  non-zero window size.
- int64 overflow of `Quota * Rate` and of time arithmetic: integers are
  unbounded.
- The `Test_*` drivers, `initTest` and `checkHit` are test scaffolding that
  depends on sleeping.
- Channel identity beyond "the same bucket object on every call", and Go's
  `select` semantics beyond one non-blocking receive.
