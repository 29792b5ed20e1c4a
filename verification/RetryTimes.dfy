/** How exact the reported reset and retry times are, and what the middleware makes of them. */
module RetryTimes {
  import opened Common
  import opened TokenBucket

  lemma Waiting(rate: int, elapsed: int, missing: real)
    requires rate > 0
    ensures Gain(rate, elapsed) >= missing <==> elapsed as real >= missing / rate as real * 1000.0
  {
    var r := rate as real;
    var d := elapsed as real / 1000.0;
    var q := missing / r;
    assert q * r == missing;
    assert d >= q <==> d * r >= q * r by {
      assert (d - q) * r == d * r - q * r;
    }
  }

  /** After a denial the next check is admitted exactly from `retryAfter` on. */
  lemma {:induction false} RetryAfterIsExact(cfg: Config, s: Option<Bucket>, now: int, later: int)
    requires cfg.rate > 0 && cfg.capacity >= 1
    requires !Admit(cfg, s, now).1
    ensures
      var b := Admit(cfg, s, now).0;
      Admit(cfg, Some(b), later).1 <==> (later - now) as real >= RetryAfter(cfg, b.tokens)
  {
    Waiting(cfg.rate, later - now, 1.0 - Admit(cfg, s, now).0.tokens);
  }

  /** After any check the bucket is full exactly from `resetAt` on. */
  lemma {:induction false} ResetAtIsExact(cfg: Config, s: Option<Bucket>, now: int, later: int)
    requires cfg.rate > 0
    ensures
      var b := Admit(cfg, s, now).0;
      Refill(cfg, Some(b), later) == cfg.capacity as real <==> later as real >= ResetAt(cfg, b.tokens, now)
  {
    Waiting(cfg.rate, later - now, cfg.capacity as real - Admit(cfg, s, now).0.tokens);
  }

  lemma DenialLasts(cfg: Config, s: Option<Bucket>, now: int)
    requires cfg.rate > 0 && !Admit(cfg, s, now).1
    ensures RetryAfter(cfg, Admit(cfg, s, now).0.tokens) > 0.0
  {
    Waiting(cfg.rate, 0, 1.0 - Admit(cfg, s, now).0.tokens);
    assert Gain(cfg.rate, 0) == 0.0;
  }

  /**
   The caller sees the retry time cut to whole milliseconds; waiting that long is enough
   exactly when nothing was cut off, and one millisecond more is always enough.
   */
  lemma TruncatedRetry(cfg: Config, s: Option<Bucket>, now: int)
    requires cfg.rate > 0 && cfg.capacity >= 1
    requires !Admit(cfg, s, now).1
    ensures
      var b := Admit(cfg, s, now).0;
      var exact := RetryAfter(cfg, b.tokens);
      var told := ToResult(cfg, Answer(false, b.tokens), now).retryAfterMs.value;
      && (Admit(cfg, Some(b), now + told).1 <==> told as real == exact)
      && Admit(cfg, Some(b), now + told + 1).1
  {
    var b := Admit(cfg, s, now).0;
    var exact := RetryAfter(cfg, b.tokens);
    DenialLasts(cfg, s, now);
    RetryAfterIsExact(cfg, s, now, now + Truncate(exact));
    RetryAfterIsExact(cfg, s, now, now + Truncate(exact) + 1);
  }

  // ---------------------------------------------------------------- the result of a check

  ghost predicate FullAt(b: Bucket, r: RateLimitResult, rate: int, t: int) {
    b.tokens + Gain(rate, t - b.lastUpdate) >= r.limit as real
  }

  /** The refill reaches the limit to the fraction in a whole millisecond. */
  ghost predicate FillsAt(b: Bucket, r: RateLimitResult, rate: int, t: int) {
    b.tokens + Gain(rate, t - b.lastUpdate) == r.limit as real
  }

  lemma TruncateIsNear(x: real)
    ensures Truncate(x) as real - 1.0 < x < Truncate(x) as real + 1.0
    ensures Truncate(x) as real >= x <==> Truncate(x) as real == x || x < 0.0
  {
  }

  /** The real time at which the bucket is full, and the whole milliseconds about it. */
  lemma FullFrom(b: Bucket, r: RateLimitResult, rate: int, full: real, t: int)
    requires rate > 0 && full == b.lastUpdate as real + (r.limit as real - b.tokens) / rate as real * 1000.0
    ensures FullAt(b, r, rate, t) <==> t as real >= full
    ensures FillsAt(b, r, rate, t) <==> t as real == full
  {
    Waiting(rate, t - b.lastUpdate, r.limit as real - b.tokens);
    Reaching(rate, t - b.lastUpdate, r.limit as real - b.tokens);
  }

  lemma Reaching(rate: int, elapsed: int, missing: real)
    requires rate > 0
    ensures Gain(rate, elapsed) == missing <==> elapsed as real == missing / rate as real * 1000.0
  {
    var q, r, d := missing / rate as real, rate as real, elapsed as real / 1000.0;
    assert q * r == missing;
    assert (d - q) * r == d * r - q * r;
  }

  /**
   The reported reset time, in whole milliseconds: the bucket that the check leaves is full at no
   time before it and at every time after it, and at the time itself exactly if it fills up in a whole
   millisecond or was full at the clock's zero already. The reported level is the stored one.
   */
  lemma TruncatedReset(cfg: Config, e: Option<Entry>, now: int, srv: int, t: int)
    requires cfg.rate > 0
    ensures
      var (entry, answer) := CheckEntry(cfg, e, now, srv);
      var b, r := entry.bucket, ToResult(cfg, answer, now);
      && r.currentTokens == b.tokens && r.resetAtMs.Some?
      && (t < r.resetAtMs.value ==> !FullAt(b, r, cfg.rate, t))
      && (t > r.resetAtMs.value ==> FullAt(b, r, cfg.rate, t))
      && (FullAt(b, r, cfg.rate, r.resetAtMs.value)
          <==> FullAt(b, r, cfg.rate, 0) || exists at :: FillsAt(b, r, cfg.rate, at))
  {
    var (entry, answer) := CheckEntry(cfg, e, now, srv);
    var b, r := entry.bucket, ToResult(cfg, answer, now);
    var told, full := r.resetAtMs.value, ResetAt(cfg, b.tokens, now);
    TruncateIsNear(full);
    FullFrom(b, r, cfg.rate, full, t);
    FullFrom(b, r, cfg.rate, full, told);
    FullFrom(b, r, cfg.rate, full, 0);
    forall at
      ensures FillsAt(b, r, cfg.rate, at) <==> at as real == full
    {
      FullFrom(b, r, cfg.rate, full, at);
    }
  }

  /** So many further checks at the same instant are all admitted. */
  ghost predicate AllAdmitted(cfg: Config, b: Bucket, now: int, n: nat)
    decreases n
  {
    n > 0 ==>
      var (next, ok) := Admit(cfg, Some(b), now);
      ok && AllAdmitted(cfg, next, now, n - 1)
  }

  lemma {:induction false} AdmittedAtOnce(cfg: Config, b: Bucket, now: int, n: nat)
    requires b.lastUpdate == now && b.tokens <= cfg.capacity as real && n > 0
    ensures AllAdmitted(cfg, b, now, n) <==> b.tokens >= n as real
    decreases n
  {
    assert Refill(cfg, Some(b), now) == b.tokens by {
      assert Gain(cfg.rate, 0) == 0.0;
    }
    if n > 1 && b.tokens >= 1.0 {
      AdmittedAtOnce(cfg, Admit(cfg, Some(b), now).0, now, n - 1);
    }
  }

  /** After a check, exactly as many further ones are admitted at once as it reports to remain. */
  lemma RemainingIsExact(cfg: Config, e: Option<Entry>, now: int, srv: int, n: nat)
    requires n > 0
    ensures
      var (entry, answer) := CheckEntry(cfg, e, now, srv);
      var r := ToResult(cfg, answer, now);
      && (AllAdmitted(cfg, entry.bucket, now, n) <==> n <= r.remaining)
      && (r.allowed ==> r.retryAfterMs == Some(0))
  {
    var b := CheckEntry(cfg, e, now, srv).0.bucket;
    AdmittedAtOnce(cfg, b, now, n);
  }

  /**
   A checked key lives from the check on for its window, rounded up to a whole second by Redis's
   clock.
   */
  lemma KeyOutlivesWindow(cfg: Config, e: Option<Entry>, now: int, srv: int) returns (ttl: int)
    ensures cfg.window <= ttl < cfg.window + 1000 && ttl % 1000 == 0
    ensures
      var entry := CheckEntry(cfg, e, now, srv).0;
      forall later :: Live(Some(entry), later) == if later < srv + ttl then Some(entry.bucket) else None
  {
    ttl := 1000 * TtlSeconds(cfg);
  }

  // ---------------------------------------------------------------- the Retry-After header

  const SECOND: int := 1_000_000_000

  /** The middleware divides a duration in nanoseconds by a second, then converts to seconds again. */
  function RetryAfterHeader(retryAfterMs: nat): int {
    var retryAfter := retryAfterMs * 1_000_000 / SECOND;
    var atLeastOne := if retryAfter == 0 then 1 else retryAfter;
    atLeastOne / SECOND
  }

  /** The intended header: whole seconds, at least one. */
  function RepairedHeader(retryAfterMs: nat): int {
    var retryAfter := retryAfterMs * 1_000_000 / SECOND;
    if retryAfter == 0 then 1 else retryAfter
  }

  /** As written the header is 0 for every retry time below 10^9 seconds (over 31 years), and only then. */
  lemma HeaderIsZero(retryAfterMs: nat)
    ensures RetryAfterHeader(retryAfterMs) == 0 <==> retryAfterMs < 1000 * SECOND
    ensures retryAfterMs >= 1000 * SECOND ==> RetryAfterHeader(retryAfterMs) * SECOND * 1000 <= retryAfterMs
                                              < (RetryAfterHeader(retryAfterMs) + 1) * SECOND * 1000
    ensures RepairedHeader(retryAfterMs) >= 1
    ensures RetryAfterHeader(retryAfterMs) != RepairedHeader(retryAfterMs)
  {
  }

  lemma HeaderCovers(exact: real)
    requires exact > 0.0
    ensures (1000 * RepairedHeader(Truncate(exact))) as real >= exact
       <==> Truncate(exact) < 1000 || (Truncate(exact) as real == exact && Truncate(exact) % 1000 == 0)
  {
  }

  /** Waiting out the intended header is enough exactly below one second or for a whole number of seconds. */
  lemma RepairedHeaderExact(cfg: Config, s: Option<Bucket>, now: int)
    requires cfg.rate > 0 && cfg.capacity >= 1
    requires !Admit(cfg, s, now).1
    ensures
      var b := Admit(cfg, s, now).0;
      var told := ToResult(cfg, Answer(false, b.tokens), now).retryAfterMs.value;
      Admit(cfg, Some(b), now + 1000 * RepairedHeader(told)).1
      <==> told < 1000 || (told as real == RetryAfter(cfg, b.tokens) && told % 1000 == 0)
  {
    var exact := RetryAfter(cfg, Admit(cfg, s, now).0.tokens);
    DenialLasts(cfg, s, now);
    HeaderCovers(exact);
    RetryAfterIsExact(cfg, s, now, now + 1000 * RepairedHeader(Truncate(exact)));
  }
}
