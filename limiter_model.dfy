/** The rate limiter as a value: one snapshot of its fields, one function per
    operation, and the sequences of operations that the callers and the two
    background goroutines can interleave. Times are integer nanoseconds; the
    clock is a parameter. */
module LimiterModel {

  /** A snapshot of `RateLimiter`. `initialized` stands for `Tokens != nil`,
      `occupancy` for `len(Tokens)` (the capacity of the bucket is `quota`),
      `refilling` and `resetting` for the refill and window-reset goroutines
      having been started. */
  datatype Limiter = Limiter(
    quota: int,
    rate: int,
    window: int,
    name: string,
    initialized: bool,
    occupancy: int,
    tokensUsed: int,
    rateLimitStart: int,
    refilling: bool,
    resetting: bool)

  /** The invariant every reachable limiter keeps: the window is derived from
      quota and rate, occupancy lies in [0, quota], and the goroutines exist
      exactly when the bucket does (the reset one only for a non-zero window). */
  predicate Inv(s: Limiter)
  {
    && s.window == s.quota * s.rate
    && (s.initialized ==>
          0 <= s.occupancy <= s.quota && s.refilling && (s.resetting <==> s.window != 0))
    && (!s.initialized ==> s.occupancy == 0 && !s.refilling && !s.resetting)
  }

  /** `NewRateLimiter(quota, rate, name)`: no bucket yet, window = quota * rate,
      counters at their zero values (a `rateLimitStart` of 0 stands for Go's zero `time.Time`). */
  function New(quota: int, rate: int, name: string): (s: Limiter)
    ensures Inv(s) && !s.initialized
    ensures s.quota == quota && s.rate == rate && s.window == quota * rate
  {
    Limiter(quota, rate, quota * rate, name, false, 0, 0, 0, false, false)
  }

  /** The fields that no operation of the limiter writes. */
  predicate SameConfig(s: Limiter, t: Limiter)
  {
    s.quota == t.quota && s.rate == t.rate && s.window == t.window && s.name == t.name
  }

  /** `setup`: the first call allocates an empty bucket, records the start of
      the window and starts the refill goroutine, and the reset goroutine only
      for a non-zero window; any later call changes nothing. `make` panics on a
      negative capacity, hence the precondition. */
  function Setup(s: Limiter, now: int): (r: Limiter)
    requires s.quota >= 0
    ensures Inv(s) ==> Inv(r)
    ensures r.initialized && SameConfig(s, r) && r.tokensUsed == s.tokensUsed
    ensures s.initialized ==> r == s
    ensures !s.initialized ==>
              r.occupancy == 0 && r.rateLimitStart == now && r.refilling
              && (r.resetting <==> s.window != 0)
  {
    if s.initialized then s
    else s.(initialized := true, occupancy := 0, rateLimitStart := now,
             refilling := true, resetting := s.window != 0)
  }

  /** `useToken`: a receive from the bucket, enabled only on a non-empty one. */
  function UseToken(s: Limiter): (r: Limiter)
    requires s.initialized && s.occupancy > 0
    ensures Inv(s) ==> Inv(r)
    ensures r.occupancy == s.occupancy - 1
    ensures r == s.(occupancy := r.occupancy)
  {
    s.(occupancy := s.occupancy - 1)
  }

  /** One iteration of `makeTokens`: a send into the bucket, enabled only when
      the bucket is not full. */
  function Refill(s: Limiter): (r: Limiter)
    requires s.initialized && s.occupancy < s.quota
    ensures Inv(s) ==> Inv(r)
    ensures r.occupancy == s.occupancy + 1
    ensures r == s.(occupancy := r.occupancy)
  {
    s.(occupancy := s.occupancy + 1)
  }

  /** `Throttle` without its logging: setup, then take one token and count it.
      The second component tells whether a token was taken; when it is false
      the bucket is empty and the Go call would block until a refill. */
  function Throttle(s: Limiter, now: int): (r: (Limiter, bool))
    requires s.quota >= 0
    ensures Inv(s) ==> Inv(r.0)
    ensures r.1 <==> Setup(s, now).occupancy > 0
    ensures r.1 ==> r.0 == Setup(s, now).(occupancy := Setup(s, now).occupancy - 1,
                                          tokensUsed := s.tokensUsed + 1)
    ensures !r.1 ==> r.0 == Setup(s, now)
  {
    var t := Setup(s, now);
    if t.occupancy > 0 then (UseToken(t).(tokensUsed := t.tokensUsed + 1), true)
    else (t, false)
  }

  /** `reset`: drain the bucket and restart the window. On a limiter without a
      bucket the receive of the `select` is never ready (a nil channel), so only
      the counters are reset. */
  function Reset(s: Limiter, now: int): (r: Limiter)
    ensures Inv(s) ==> Inv(r)
    ensures r.occupancy == 0 && r.tokensUsed == 0 && r.rateLimitStart == now
    ensures SameConfig(s, r) && r.initialized == s.initialized
    ensures r.refilling == s.refilling && r.resetting == s.resetting
  {
    s.(occupancy := 0, tokensUsed := 0, rateLimitStart := now)
  }

  /** `TokensLeft`: setup, then the number of tokens in the bucket. */
  function TokensLeft(s: Limiter, now: int): (r: (Limiter, int))
    requires s.quota >= 0
    ensures r.0 == Setup(s, now)
    ensures r.1 == r.0.occupancy
    ensures Inv(s) ==> 0 <= r.1 <= s.quota
  {
    var t := Setup(s, now);
    (t, t.occupancy)
  }

  /** The events that can happen to one limiter: calls of its public
      operations, a caller receiving from the channel it was handed, and a step
      of each background goroutine. */
  datatype Op =
    | ThrottleCall(now: int)
    | TokensLeftCall(now: int)
    | ChannelCall(now: int)
    | ChannelReceive
    | RefillStep
    | ResetStep(now: int)

  /** One event. An event whose channel operation would block, or whose
      goroutine has not been started, leaves the limiter as it is. */
  function Apply(s: Limiter, op: Op): (r: Limiter)
    requires s.quota >= 0
    ensures Inv(s) ==> Inv(r)
    ensures SameConfig(s, r)
    ensures op.ChannelReceive? && !(s.initialized && s.occupancy > 0) ==> r == s
    ensures op.RefillStep? && !(s.refilling && s.initialized && s.occupancy < s.quota) ==> r == s
    ensures op.ResetStep? && !s.resetting ==> r == s
  {
    match op
    case ThrottleCall(now) => Throttle(s, now).0
    case TokensLeftCall(now) => TokensLeft(s, now).0
    case ChannelCall(now) => Setup(s, now)
    case ChannelReceive => if s.initialized && s.occupancy > 0 then UseToken(s) else s
    case RefillStep => if s.refilling && s.initialized && s.occupancy < s.quota then Refill(s) else s
    case ResetStep(now) => if s.resetting then Reset(s, now) else s
  }

  /** The limiter after a sequence of events. */
  function Run(s: Limiter, ops: seq<Op>): Limiter
    requires s.quota >= 0
    decreases |ops|
  {
    if ops == [] then s
    else Run(Apply(s, ops[0]), ops[1..])
  }

  /** The number of refill steps in a sequence of events. */
  function Refills(ops: seq<Op>): nat
  {
    if ops == [] then 0
    else (if ops[0].RefillStep? then 1 else 0) + Refills(ops[1..])
  }

  /** Every sequence of events keeps the invariant, and so keeps the
      occupancy of the bucket within [0, quota]. */
  lemma {:induction false} RunKeepsInv(s: Limiter, ops: seq<Op>)
    requires s.quota >= 0 && Inv(s)
    ensures Inv(Run(s, ops)) && SameConfig(s, Run(s, ops))
    ensures Run(s, ops).initialized ==> 0 <= Run(s, ops).occupancy <= s.quota
    decreases |ops|
  {
    if ops != [] {
      RunKeepsInv(Apply(s, ops[0]), ops[1..]);
    }
  }

  /** Capacity bound: whatever the callers and goroutines do to a new limiter,
      its bucket never holds a negative number of tokens nor more than quota. */
  lemma OccupancyBounded(quota: int, rate: int, name: string, ops: seq<Op>)
    requires quota >= 0
    ensures 0 <= Run(New(quota, rate, name), ops).occupancy <= quota
  {
    RunKeepsInv(New(quota, rate, name), ops);
  }

  /** Any later setup is a no-op: setup is idempotent. */
  lemma SetupIdempotent(s: Limiter, now: int, later: int)
    requires s.quota >= 0
    ensures Setup(Setup(s, now), later) == Setup(s, now)
  {
  }

  /** Without a window reset, the tokens counted as used plus those still in
      the bucket grow by at most one per refill step. */
  lemma {:induction false} UsageBoundedByRefills(s: Limiter, ops: seq<Op>)
    requires s.quota >= 0 && Inv(s)
    requires forall i :: 0 <= i < |ops| ==> !ops[i].ResetStep?
    ensures Run(s, ops).tokensUsed + Run(s, ops).occupancy
            <= s.tokensUsed + s.occupancy + Refills(ops)
    decreases |ops|
  {
    if ops != [] {
      var t := Apply(s, ops[0]);
      assert t.tokensUsed + t.occupancy
             <= s.tokensUsed + s.occupancy + (if ops[0].RefillStep? then 1 else 0);
      UsageBoundedByRefills(t, ops[1..]);
    }
  }

  /** Discard on reset: after a window reset, and until the next one, both the
      tokens granted through `Throttle` and the tokens left in the bucket come
      only from refills made since the reset; nothing from the old window is
      carried over. */
  lemma GrantsSinceResetBounded(s: Limiter, now: int, ops: seq<Op>)
    requires s.quota >= 0 && Inv(s)
    requires forall i :: 0 <= i < |ops| ==> !ops[i].ResetStep?
    ensures Run(Reset(s, now), ops).tokensUsed + Run(Reset(s, now), ops).occupancy <= Refills(ops)
  {
    UsageBoundedByRefills(Reset(s, now), ops);
  }
}
