/** `RateLimiter` as an object whose methods update its fields in place. Each
    method is specified by the function of `LimiterModel` that describes its
    effect on a snapshot of the fields; what the bucket object is (allocated
    once, then always the same) is stated on the methods themselves. */
module RateLimiting {
  import opened Bucket
  import LimiterModel

  class RateLimiter {
    const quota: int
    const rate: int
    const window: int
    const name: string
    /** `Tokens`; null stands for Go's nil channel before setup. */
    var tokens: TokenBucket?
    var tokensUsed: int
    var rateLimitStart: int
    /** The `makeTokens` goroutine has been started. */
    var refilling: bool
    /** The window-reset goroutine has been started. */
    var resetting: bool

    /** The bucket, once allocated, has capacity `quota`, and the goroutines
        exist exactly when it does. */
    ghost predicate Valid()
      reads this, tokens
      ensures Valid() ==> LimiterModel.Inv(Snapshot())
    {
      && window == quota * rate
      && (tokens == null ==> !refilling && !resetting)
      && (tokens != null ==>
            tokens.Valid() && tokens.capacity == quota
            && refilling && (resetting <==> window != 0))
    }

    /** The fields as a value. */
    ghost function Snapshot(): LimiterModel.Limiter
      reads this, tokens
    {
      LimiterModel.Limiter(
        quota, rate, window, name,
        tokens != null, if tokens == null then 0 else tokens.count,
        tokensUsed, rateLimitStart, refilling, resetting)
    }

    /** `NewRateLimiter(quota, rate, name)`. The name only labels log lines. */
    constructor (quota: int, rate: int, name: string)
      ensures Valid() && tokens == null
      ensures Snapshot() == LimiterModel.New(quota, rate, name)
    {
      this.quota := quota;
      this.rate := rate;
      this.window := quota * rate;
      this.name := name;
      tokens := null;
      tokensUsed := 0;
      rateLimitStart := 0;
      refilling := false;
      resetting := false;
    }

    /** `setup`: allocate the bucket the first time only. */
    method Setup(now: int)
      requires Valid() && quota >= 0
      modifies this
      ensures Valid() && tokens != null
      ensures Snapshot() == LimiterModel.Setup(old(Snapshot()), now)
      ensures old(tokens) != null ==> tokens == old(tokens)
      ensures old(tokens) == null ==> fresh(tokens)
    {
      if tokens == null {
        tokens := new TokenBucket(quota);
        rateLimitStart := now;
        refilling := true;
        if window != 0 {
          resetting := true;
        }
      }
    }

    /** `useToken`: receive one token from the bucket. */
    method UseToken()
      requires Valid() && tokens != null && tokens.count > 0
      modifies tokens
      ensures Valid()
      ensures Snapshot() == LimiterModel.UseToken(old(Snapshot()))
    {
      tokens.Receive();
    }

    /** `Throttle` without its logging. `acquired` is false exactly when the
        bucket is empty after setup, where the Go call blocks. */
    method Throttle(now: int) returns (acquired: bool)
      requires Valid() && quota >= 0
      modifies this, tokens
      ensures Valid() && tokens != null
      ensures (Snapshot(), acquired) == LimiterModel.Throttle(old(Snapshot()), now)
      ensures old(tokens) != null ==> tokens == old(tokens)
      ensures old(tokens) == null ==> fresh(tokens)
    {
      Setup(now);
      acquired := tokens.count > 0;
      if acquired {
        UseToken();
        tokensUsed := tokensUsed + 1;
      }
    }

    /** `GetThrottleChannel`: the one bucket of this limiter. */
    method GetThrottleChannel(now: int) returns (b: TokenBucket)
      requires Valid() && quota >= 0
      modifies this
      ensures Valid() && b == tokens
      ensures Snapshot() == LimiterModel.Setup(old(Snapshot()), now)
      ensures old(tokens) != null ==> b == old(tokens)
      ensures old(tokens) == null ==> fresh(b)
    {
      Setup(now);
      b := tokens;
    }

    /** One iteration of the loop in `makeTokens`: send a token. */
    method MakeToken()
      requires Valid() && tokens != null && tokens.count < tokens.capacity
      modifies tokens
      ensures Valid()
      ensures Snapshot() == LimiterModel.Refill(old(Snapshot()))
    {
      tokens.Send();
    }

    /** `reset`: receive without blocking until the bucket is empty, then
        restart the window. A nil channel is never ready to receive. */
    method Reset(now: int)
      requires Valid()
      modifies this, tokens
      ensures Valid() && tokens == old(tokens)
      ensures Snapshot() == LimiterModel.Reset(old(Snapshot()), now)
    {
      while true
        invariant Valid() && tokens == old(tokens)
        invariant tokensUsed == old(tokensUsed) && rateLimitStart == old(rateLimitStart)
        invariant refilling == old(refilling) && resetting == old(resetting)
        decreases if tokens == null then 0 else tokens.count
      {
        var received := false;
        if tokens != null {
          received := tokens.TryReceive();
        }
        if !received {
          rateLimitStart := now;
          tokensUsed := 0;
          return;
        }
      }
    }

    /** `TokensLeft`: setup, then the number of tokens in the bucket. */
    method TokensLeft(now: int) returns (n: int)
      requires Valid() && quota >= 0
      modifies this
      ensures Valid() && tokens != null
      ensures (Snapshot(), n) == LimiterModel.TokensLeft(old(Snapshot()), now)
      ensures 0 <= n <= quota
      ensures old(tokens) != null ==> tokens == old(tokens)
    {
      Setup(now);
      n := tokens.count;
    }
  }
}
