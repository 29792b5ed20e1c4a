/**
 The token-bucket script and the Redis hash it keeps.

 A bucket is the hash `{tokens, last_update}`; an entry adds the deadline that EXPIRE sets.
 `now` is the gateway's clock and `srv` the Redis server's clock, both in milliseconds.
 Script arithmetic is exact real arithmetic.
 */
module TokenBucket {
  import opened Common

  /** Rate in tokens per second, capacity in tokens, window in milliseconds. */
  datatype Config = Config(rate: int, capacity: int, window: int)

  datatype Bucket = Bucket(tokens: real, lastUpdate: int)

  datatype Entry = Entry(bucket: Bucket, deadline: int)

  type Store = map<string, Entry>

  /** Tokens gained in `elapsed` milliseconds. */
  function Gain(rate: int, elapsed: int): real {
    (elapsed as real / 1000.0) * (rate as real)
  }

  /** `n` requests fit into one capacity plus the refill of `elapsed` milliseconds. */
  ghost predicate Within(cfg: Config, n: nat, elapsed: int) {
    n as real <= cfg.capacity as real + Gain(cfg.rate, elapsed)
  }

  /** The bucket level the script computes before it decides. */
  function Refill(cfg: Config, b: Option<Bucket>, now: int): real {
    match b
    case None => cfg.capacity as real
    case Some(b) => Min(cfg.capacity as real, b.tokens + Gain(cfg.rate, now - b.lastUpdate))
  }

  /** One run of the script on a live or missing bucket: the new hash and the verdict. */
  function Admit(cfg: Config, b: Option<Bucket>, now: int): (Bucket, bool) {
    var level := Refill(cfg, b, now);
    if level >= 1.0 then (Bucket(level - 1.0, now), true) else (Bucket(level, now), false)
  }

  /** EXPIRE takes the window rounded up to whole seconds. */
  function TtlSeconds(cfg: Config): int {
    (cfg.window + 999) / 1000
  }

  function ResetAt(cfg: Config, tokens: real, now: int): real
    requires cfg.rate != 0
  {
    now as real + (cfg.capacity as real - tokens) / cfg.rate as real * 1000.0
  }

  function RetryAfter(cfg: Config, tokens: real): real
    requires cfg.rate != 0
  {
    (1.0 - tokens) / cfg.rate as real * 1000.0
  }

  /** The GetTokens script on a live bucket; `now2` is its second clock reading. */
  function InspectBucket(cfg: Config, b: Bucket, now: int, now2: int): Bucket {
    if b.lastUpdate != now2 then Bucket(Refill(cfg, Some(b), now), now) else b
  }

  /** What HMGET sees: an entry past its deadline is gone. */
  function Live(e: Option<Entry>, srv: int): Option<Bucket> {
    match e
    case None => None
    case Some(e) => if srv < e.deadline then Some(e.bucket) else None
  }

  function Lookup(store: Store, key: string): Option<Entry> {
    if key in store then Some(store[key]) else None
  }

  /** What a `Check` tells its caller: the verdict and the tokens left. */
  datatype Answer = Answer(allowed: bool, tokens: real)

  function CheckEntry(cfg: Config, e: Option<Entry>, now: int, srv: int): (Entry, Answer) {
    var (b, ok) := Admit(cfg, Live(e, srv), now);
    (Entry(b, srv + 1000 * TtlSeconds(cfg)), Answer(ok, b.tokens))
  }

  /** HMSET on a live key keeps its TTL; a missing key stays missing. */
  function InspectEntry(cfg: Config, e: Option<Entry>, now: int, now2: int, srv: int): Option<Entry> {
    if Live(e, srv).None? then e
    else Some(e.value.(bucket := InspectBucket(cfg, e.value.bucket, now, now2)))
  }

  function InspectKey(cfg: Config, store: Store, k: string, now: int, now2: int, srv: int): Store {
    var after := InspectEntry(cfg, Lookup(store, k), now, now2, srv);
    if after.Some? then store[k := after.value] else store
  }

  /** The Redis client that all limiters of a process share. */
  class Redis {
    var store: Store

    constructor ()
      ensures store == map[]
    {
      store := map[];
    }
  }

  /** A time is `None` where a rate of zero makes the script divide by zero. */
  datatype RateLimitResult = RateLimitResult(
    allowed: bool,
    remaining: int,
    resetAtMs: Option<int>,
    limit: int,
    retryAfterMs: Option<int>,
    currentTokens: real)

  function ToResult(cfg: Config, a: Answer, now: int): RateLimitResult {
    RateLimitResult(
      a.allowed,
      Truncate(a.tokens),
      if cfg.rate == 0 then None else Some(Truncate(ResetAt(cfg, a.tokens, now))),
      cfg.capacity,
      if a.allowed then Some(0)
      else if cfg.rate == 0 then None
      else Some(Truncate(RetryAfter(cfg, a.tokens))),
      a.tokens)
  }

  class TokenBucketRateLimiter {
    const client: Redis
    const rate: int
    const bucketSize: int
    const defaultWindow: int
    var redisPrefix: string

    constructor (client: Redis, rate: int, bucketSize: int, window: int)
      ensures this.client == client && Settings() == Config(rate, bucketSize, window)
      ensures redisPrefix == "ratelimit:"
    {
      this.client := client;
      this.rate := rate;
      this.bucketSize := bucketSize;
      this.defaultWindow := window;
      redisPrefix := "ratelimit:";
    }

    function Settings(): Config {
      Config(rate, bucketSize, defaultWindow)
    }

    method SetPrefix(prefix: string)
      modifies this`redisPrefix
      ensures redisPrefix == prefix
    {
      redisPrefix := prefix;
    }

    /** `evalFails` is the outcome of EVAL; a failed script has no effect. */
    method Check(key: string, now: int, srv: int, evalFails: bool) returns (r: Result<RateLimitResult, ()>)
      modifies client
      ensures evalFails ==> r == Err(()) && client.store == old(client.store)
      ensures !evalFails ==>
        var (entry, answer) := CheckEntry(Settings(), Lookup(old(client.store), redisPrefix + key), now, srv);
        && r == Ok(ToResult(Settings(), answer, now))
        && client.store == old(client.store)[redisPrefix + key := entry]
    {
      if evalFails {
        return Err(());
      }
      var bucket := Live(Lookup(client.store, redisPrefix + key), srv);
      var tokens, lastUpdate;
      if bucket.None? {
        tokens, lastUpdate := bucketSize as real, now;
      } else {
        tokens, lastUpdate := bucket.value.tokens, bucket.value.lastUpdate;
      }
      tokens := Min(bucketSize as real, tokens + Gain(rate, now - lastUpdate));
      var allowed := false;
      if tokens >= 1.0 {
        tokens := tokens - 1.0;
        allowed := true;
      }
      var ttl := (defaultWindow + 999) / 1000;
      client.store := client.store[redisPrefix + key := Entry(Bucket(tokens, now), srv + 1000 * ttl)];
      var resetAt := if rate == 0 then None else Some(Truncate(ResetAt(Settings(), tokens, now)));
      var retryAfter := Some(0);
      if !allowed {
        retryAfter := if rate == 0 then None else Some(Truncate(RetryAfter(Settings(), tokens)));
      }
      r := Ok(RateLimitResult(allowed, Truncate(tokens), resetAt, bucketSize, retryAfter, tokens));
    }

    /** Checks under another configuration through a temporary limiter; `this` is not touched. */
    method CheckWithConfig(key: string, cfg: Config, now: int, srv: int, evalFails: bool)
      returns (r: Result<RateLimitResult, ()>)
      modifies client
      ensures evalFails ==> r == Err(()) && client.store == old(client.store)
      ensures !evalFails ==>
        var (entry, answer) := CheckEntry(cfg, Lookup(old(client.store), redisPrefix + key), now, srv);
        && r == Ok(ToResult(cfg, answer, now))
        && client.store == old(client.store)[redisPrefix + key := entry]
    {
      var temp := new TokenBucketRateLimiter(client, cfg.rate, cfg.capacity, cfg.window);
      temp.SetPrefix(redisPrefix);
      r := temp.Check(key, now, srv, evalFails);
    }

    method Reset(key: string, delFails: bool) returns (r: Result<(), ()>)
      modifies client
      ensures delFails ==> r == Err(()) && client.store == old(client.store)
      ensures !delFails ==> r == Ok(()) && client.store == old(client.store) - {redisPrefix + key}
    {
      if delFails {
        return Err(());
      }
      client.store := client.store - {redisPrefix + key};
      r := Ok(());
    }

    /** The current level, 0 for a key Redis does not hold. */
    method GetTokens(key: string, now: int, now2: int, srv: int, evalFails: bool) returns (r: Result<real, ()>)
      modifies client
      ensures evalFails ==> r == Err(())
      ensures client.store == if evalFails then old(client.store)
                              else InspectKey(Settings(), old(client.store), redisPrefix + key, now, now2, srv)
      ensures !evalFails ==>
        var entry := Lookup(client.store, redisPrefix + key);
        r == Ok(if Live(entry, srv).Some? then entry.value.bucket.tokens else 0.0)
    {
      if evalFails {
        return Err(());
      }
      var k := redisPrefix + key;
      var bucket := Live(Lookup(client.store, k), srv);
      if bucket.None? {
        assert k in client.store ==> client.store[k := client.store[k]] == client.store;
        return Ok(0.0);
      }
      var tokens := bucket.value.tokens;
      if bucket.value.lastUpdate != now2 {
        tokens := Min(bucketSize as real, tokens + Gain(rate, now - bucket.value.lastUpdate));
        client.store := client.store[k := client.store[k].(bucket := Bucket(tokens, now))];
      } else {
        assert client.store[k := client.store[k]] == client.store;
      }
      r := Ok(tokens);
    }
  }
}
