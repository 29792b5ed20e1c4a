/** The composite limiter: IP, API key and tenant buckets charged one after another. */
module Composite {
  import opened Common
  import opened TokenBucket
  import opened BucketRuns
  import opened BucketExpiry
  import opened RetryTimes

  /**
   One dimension of a request: its key (`None` for a nil key function), the clocks and the EVAL
   outcome; `now2` is the second reading that GetTokens makes.
   */
  datatype Dim = Dim(key: Option<string>, now: int, now2: int, srv: int, fails: bool)

  datatype Request = Request(ip: Dim, apiKey: Dim, tenant: Dim)

  datatype Configs = Configs(ip: Config, apiKey: Config, tenant: Config)

  datatype Which = IP | APIKey | Tenant

  function Pick(r: Request, w: Which): Dim {
    match w case IP => r.ip case APIKey => r.apiKey case Tenant => r.tenant
  }

  function PickConfig(c: Configs, w: Which): Config {
    match w case IP => c.ip case APIKey => c.apiKey case Tenant => c.tenant
  }

  predicate Evaluated(d: Dim) {
    d.key.Some? && !d.fails
  }

  /** A dimension that is not evaluated, or fails, answers nothing and changes nothing. */
  function CheckDim(cfg: Config, prefix: string, store: Store, d: Dim): (Store, Option<Answer>) {
    if Evaluated(d) then
      var k := prefix + d.key.value;
      var (entry, answer) := CheckEntry(cfg, Lookup(store, k), d.now, d.srv);
      (store[k := entry], Some(answer))
    else (store, None)
  }

  datatype Answers = Answers(ip: Option<Answer>, apiKey: Option<Answer>, tenant: Option<Answer>)

  function PickAnswer(a: Answers, w: Which): Option<Answer> {
    match w case IP => a.ip case APIKey => a.apiKey case Tenant => a.tenant
  }

  function CheckAll(cs: Configs, prefix: string, store: Store, r: Request): (Store, Answers) {
    var (store1, ip) := CheckDim(cs.ip, prefix, store, r.ip);
    var (store2, apiKey) := CheckDim(cs.apiKey, prefix, store1, r.apiKey);
    var (store3, tenant) := CheckDim(cs.tenant, prefix, store2, r.tenant);
    (store3, Answers(ip, apiKey, tenant))
  }

  function InspectDim(cfg: Config, prefix: string, store: Store, d: Dim): Store {
    if Evaluated(d) then InspectKey(cfg, store, prefix + d.key.value, d.now, d.now2, d.srv) else store
  }

  function InspectAll(cs: Configs, prefix: string, store: Store, r: Request): Store {
    InspectDim(cs.tenant, prefix, InspectDim(cs.apiKey, prefix, InspectDim(cs.ip, prefix, store, r.ip), r.apiKey), r.tenant)
  }

  /** A status query reports on a dimension with a live bucket that is not empty, ... */
  predicate Found(prefix: string, after: Store, d: Dim) {
    && Evaluated(d)
    && var bucket := Live(Lookup(after, prefix + d.key.value), d.srv);
       bucket.Some? && bucket.value.tokens > 0.0
  }

  /** ... in whole tokens. */
  function Reported(prefix: string, after: Store, d: Dim): int {
    if Found(prefix, after, d) then Truncate(Live(Lookup(after, prefix + d.key.value), d.srv).value.tokens) else 0
  }

  predicate Allowed(a: Answers) {
    forall w: Which :: PickAnswer(a, w).Some? ==> PickAnswer(a, w).value.allowed
  }

  datatype CompositeResult = CompositeResult(
    allowed: bool,
    ipRemaining: int, apiKeyRemaining: int, tenantRemaining: int,
    ipLimit: int, apiKeyLimit: int, tenantLimit: int,
    retryAfterMs: int,
    reason: string)

  class CompositeRateLimiter {
    const ipLimiter: TokenBucketRateLimiter
    const apiKeyLimiter: TokenBucketRateLimiter
    const tenantLimiter: TokenBucketRateLimiter
    const client: Redis

    /** The limiters share one client and one prefix. */
    ghost predicate Valid()
      reads this, ipLimiter, apiKeyLimiter, tenantLimiter
    {
      && client == ipLimiter.client == apiKeyLimiter.client == tenantLimiter.client
      && ipLimiter.redisPrefix == apiKeyLimiter.redisPrefix == tenantLimiter.redisPrefix
    }

    function Settings(): Configs {
      Configs(ipLimiter.Settings(), apiKeyLimiter.Settings(), tenantLimiter.Settings())
    }

    constructor (client: Redis, cs: Configs)
      ensures Valid() && this.client == client && Settings() == cs
      ensures fresh(ipLimiter) && fresh(apiKeyLimiter) && fresh(tenantLimiter)
      ensures ipLimiter.redisPrefix == "ratelimit:"
    {
      this.client := client;
      ipLimiter := new TokenBucketRateLimiter(client, cs.ip.rate, cs.ip.capacity, cs.ip.window);
      apiKeyLimiter := new TokenBucketRateLimiter(client, cs.apiKey.rate, cs.apiKey.capacity, cs.apiKey.window);
      tenantLimiter := new TokenBucketRateLimiter(client, cs.tenant.rate, cs.tenant.capacity, cs.tenant.window);
    }

    /** One dimension: skipped without a key function, and an error is only logged. */
    method CheckOne(limiter: TokenBucketRateLimiter, d: Dim) returns (r: Option<RateLimitResult>)
      requires limiter.client == client
      modifies client
      ensures
        var (store, answer) := CheckDim(limiter.Settings(), limiter.redisPrefix, old(client.store), d);
        && client.store == store
        && r.Some? == answer.Some?
        && (r.Some? ==>
              && r.value.allowed == answer.value.allowed
              && r.value.remaining == Truncate(answer.value.tokens)
              && r.value.limit == limiter.bucketSize)
    {
      if d.key.None? {
        return None;
      }
      var result := limiter.Check(d.key.value, d.now, d.srv, d.fails);
      r := if result.Ok? then Some(result.value) else None;
    }

    /**
     Every dimension is checked even after one has blocked; the request is allowed exactly when
     no evaluated dimension denies it, and the reason is the last dimension that did.
     */
    method Check(r: Request) returns (result: CompositeResult)
      requires Valid()
      modifies client
      ensures Valid()
      ensures
        var (store, answers) := CheckAll(Settings(), ipLimiter.redisPrefix, old(client.store), r);
        && client.store == store
        && result.allowed == Allowed(answers)
        && result.reason == (
             if answers.tenant.Some? && !answers.tenant.value.allowed then "tenant"
             else if answers.apiKey.Some? && !answers.apiKey.value.allowed then "api_key"
             else if answers.ip.Some? && !answers.ip.value.allowed then "ip"
             else "")
        && result.retryAfterMs == (if result.allowed then 0 else 1000)
        && result.ipRemaining == (if answers.ip.Some? then Truncate(answers.ip.value.tokens) else 0)
        && result.apiKeyRemaining == (if answers.apiKey.Some? then Truncate(answers.apiKey.value.tokens) else 0)
        && result.tenantRemaining == (if answers.tenant.Some? then Truncate(answers.tenant.value.tokens) else 0)
        && result.ipLimit == (if answers.ip.Some? then Settings().ip.capacity else 0)
        && result.apiKeyLimit == (if answers.apiKey.Some? then Settings().apiKey.capacity else 0)
        && result.tenantLimit == (if answers.tenant.Some? then Settings().tenant.capacity else 0)
    {
      result := CompositeResult(true, 0, 0, 0, 0, 0, 0, 0, "");
      var blockedBy := "";
      var ipResult := CheckOne(ipLimiter, r.ip);
      if ipResult.Some? {
        result := result.(ipRemaining := ipResult.value.remaining, ipLimit := ipResult.value.limit);
        if !ipResult.value.allowed { blockedBy := "ip"; }
      }
      var apiKeyResult := CheckOne(apiKeyLimiter, r.apiKey);
      if apiKeyResult.Some? {
        result := result.(apiKeyRemaining := apiKeyResult.value.remaining, apiKeyLimit := apiKeyResult.value.limit);
        if !apiKeyResult.value.allowed { blockedBy := "api_key"; }
      }
      var tenantResult := CheckOne(tenantLimiter, r.tenant);
      if tenantResult.Some? {
        result := result.(tenantRemaining := tenantResult.value.remaining, tenantLimit := tenantResult.value.limit);
        if !tenantResult.value.allowed { blockedBy := "tenant"; }
      }
      ghost var answers := CheckAll(Settings(), ipLimiter.redisPrefix, old(client.store), r).1;
      assert Allowed(answers) <==> blockedBy == "" by {
        assert PickAnswer(answers, IP) == answers.ip;
        assert PickAnswer(answers, APIKey) == answers.apiKey;
        assert PickAnswer(answers, Tenant) == answers.tenant;
      }
      if blockedBy != "" {
        result := result.(allowed := false, reason := blockedBy, retryAfterMs := 1000);
      }
    }

    method StatusOne(limiter: TokenBucketRateLimiter, d: Dim) returns (remaining: int, found: bool)
      requires limiter.client == client
      modifies client
      ensures client.store == InspectDim(limiter.Settings(), limiter.redisPrefix, old(client.store), d)
      ensures remaining == Reported(limiter.redisPrefix, client.store, d)
      ensures found == Found(limiter.redisPrefix, client.store, d)
    {
      if d.key.None? {
        return 0, false;
      }
      var tokens := limiter.GetTokens(d.key.value, d.now, d.now2, d.srv, d.fails);
      found := tokens.Ok? && tokens.value > 0.0;
      remaining := if found then Truncate(tokens.value) else 0;
    }

    /** Never blocks, whatever it finds; an evaluated dimension reports its level after the others' queries. */
    method GetRateLimitStatus(r: Request) returns (result: CompositeResult)
      requires Valid()
      modifies client
      ensures Valid() && client.store == InspectAll(Settings(), ipLimiter.redisPrefix, old(client.store), r)
      ensures
        var prefix := ipLimiter.redisPrefix;
        var store1 := InspectDim(Settings().ip, prefix, old(client.store), r.ip);
        var store2 := InspectDim(Settings().apiKey, prefix, store1, r.apiKey);
        && result.allowed && result.reason == "" && result.retryAfterMs == 0
        && result.ipRemaining == Reported(prefix, store1, r.ip)
        && result.apiKeyRemaining == Reported(prefix, store2, r.apiKey)
        && result.tenantRemaining == Reported(prefix, client.store, r.tenant)
        && result.ipLimit == (if Found(prefix, store1, r.ip) then Settings().ip.capacity else 0)
        && result.apiKeyLimit == (if Found(prefix, store2, r.apiKey) then Settings().apiKey.capacity else 0)
        && result.tenantLimit == (if Found(prefix, client.store, r.tenant) then Settings().tenant.capacity else 0)
    {
      result := CompositeResult(true, 0, 0, 0, 0, 0, 0, 0, "");
      var ipRemaining, ipFound := StatusOne(ipLimiter, r.ip);
      if ipFound {
        result := result.(ipRemaining := ipRemaining, ipLimit := ipLimiter.bucketSize);
      }
      var apiKeyRemaining, apiKeyFound := StatusOne(apiKeyLimiter, r.apiKey);
      if apiKeyFound {
        result := result.(apiKeyRemaining := apiKeyRemaining, apiKeyLimit := apiKeyLimiter.bucketSize);
      }
      var tenantRemaining, tenantFound := StatusOne(tenantLimiter, r.tenant);
      if tenantFound {
        result := result.(tenantRemaining := tenantRemaining, tenantLimit := tenantLimiter.bucketSize);
      }
    }
  }

  /** In request `r`, no other evaluated dimension uses the key of `w`. */
  predicate OwnKey(r: Request, w: Which) {
    forall v: Which :: v != w && Evaluated(Pick(r, v)) ==> Pick(r, v).key != Pick(r, w).key
  }

  /** A dimension is charged exactly as if it were alone, whether or not the others deny the request. */
  lemma ChargedAlone(cs: Configs, prefix: string, store: Store, r: Request, w: Which)
    requires Evaluated(Pick(r, w)) && OwnKey(r, w)
    ensures
      var (store', answers) := CheckAll(cs, prefix, store, r);
      var k := prefix + Pick(r, w).key.value;
      var (entry, answer) := CheckEntry(PickConfig(cs, w), Lookup(store, k), Pick(r, w).now, Pick(r, w).srv);
      PickAnswer(answers, w) == Some(answer) && Lookup(store', k) == Some(entry)
  {
    forall v: Which | v != w && Evaluated(Pick(r, v))
      ensures prefix + Pick(r, v).key.value != prefix + Pick(r, w).key.value
    {
      PrefixIsInjective(prefix, Pick(r, v).key.value, Pick(r, w).key.value);
    }
    assert Pick(r, IP) == r.ip && Pick(r, APIKey) == r.apiKey && Pick(r, Tenant) == r.tenant;
  }

  lemma PrefixIsInjective(prefix: string, a: string, b: string)
    requires a != b
    ensures prefix + a != prefix + b
  {
    assert a == (prefix + a)[|prefix|..] && b == (prefix + b)[|prefix|..];
  }

  /**
   Dimensions that share a key are charged one after another, IP first and tenant last: each answers on
   what the one before it left.
   */
  lemma ChargedInOrder(cs: Configs, prefix: string, store: Store, r: Request, key: string)
    requires Evaluated(r.ip) && Evaluated(r.apiKey) && Evaluated(r.tenant)
    requires r.ip.key == r.apiKey.key == r.tenant.key == Some(key)
    ensures
      var (store', answers) := CheckAll(cs, prefix, store, r);
      var (first, ip) := CheckEntry(cs.ip, Lookup(store, prefix + key), r.ip.now, r.ip.srv);
      var (second, apiKey) := CheckEntry(cs.apiKey, Some(first), r.apiKey.now, r.apiKey.srv);
      var (third, tenant) := CheckEntry(cs.tenant, Some(second), r.tenant.now, r.tenant.srv);
      answers == Answers(Some(ip), Some(apiKey), Some(tenant)) && store' == store[prefix + key := third]
  {
  }

  /** A key that no evaluated dimension uses keeps its entry. */
  lemma LeftAlone(cs: Configs, prefix: string, store: Store, r: Request, key: string)
    requires forall v: Which :: Evaluated(Pick(r, v)) ==> Pick(r, v).key != Some(key)
    ensures Lookup(CheckAll(cs, prefix, store, r).0, prefix + key) == Lookup(store, prefix + key)
  {
    forall v: Which | Evaluated(Pick(r, v))
      ensures prefix + Pick(r, v).key.value != prefix + key
    {
      PrefixIsInjective(prefix, Pick(r, v).key.value, key);
    }
    assert Pick(r, IP) == r.ip && Pick(r, APIKey) == r.apiKey && Pick(r, Tenant) == r.tenant;
  }

  predicate DistinctKeys(r: Request) {
    forall v: Which, w: Which :: v != w && Pick(r, v).key.Some? ==> Pick(r, v).key != Pick(r, w).key
  }

  /** One second later a bucket that was not in debt admits. */
  lemma SecondRefills(cfg: Config, e: Option<Entry>, d: Dim, later: Dim)
    requires cfg.rate >= 1 && cfg.capacity >= 1
    requires later.now >= d.now + 1000 && later.srv >= d.srv
    requires Refill(cfg, Live(e, d.srv), d.now) >= 0.0
    ensures CheckEntry(cfg, e, later.now, later.srv).1.allowed
    ensures CheckEntry(cfg, Some(CheckEntry(cfg, e, d.now, d.srv).0), later.now, later.srv).1.allowed
  {
    GainGrows(cfg.rate, 1000, later.now - d.now);
    assert Gain(cfg.rate, 1000) == cfg.rate as real;
    if Live(e, later.srv).Some? {
      GainSplits(cfg.rate, d.now - e.value.bucket.lastUpdate, later.now - d.now);
    }
  }

  /**
   With rates and capacities of at least one and no level in debt, a retry of the same request one
   second later is allowed, whichever dimensions it has and whichever of them fail at either time.
   */
  lemma OneSecondSuffices(cs: Configs, prefix: string, store: Store, r: Request, later: Request)
    requires DistinctKeys(r)
    requires forall w: Which ::
      && PickConfig(cs, w).rate >= 1 && PickConfig(cs, w).capacity >= 1
      && Pick(later, w).key == Pick(r, w).key
      && Pick(later, w).now >= Pick(r, w).now + 1000 && Pick(later, w).srv >= Pick(r, w).srv
    requires forall w: Which :: Pick(r, w).key.Some? ==>
      Refill(PickConfig(cs, w), Live(Lookup(store, prefix + Pick(r, w).key.value), Pick(r, w).srv), Pick(r, w).now) >= 0.0
    ensures Allowed(CheckAll(cs, prefix, CheckAll(cs, prefix, store, r).0, later).1)
  {
    var store' := CheckAll(cs, prefix, store, r).0;
    forall w: Which | PickAnswer(CheckAll(cs, prefix, store', later).1, w).Some?
      ensures PickAnswer(CheckAll(cs, prefix, store', later).1, w).value.allowed
    {
      assert Evaluated(Pick(later, w)) by {
        assert Pick(later, IP) == later.ip && Pick(later, APIKey) == later.apiKey && Pick(later, Tenant) == later.tenant;
      }
      var key := Pick(r, w).key.value;
      assert OwnKey(r, w) && OwnKey(later, w);
      if Evaluated(Pick(r, w)) {
        ChargedAlone(cs, prefix, store, r, w);
      } else {
        LeftAlone(cs, prefix, store, r, key);
      }
      ChargedAlone(cs, prefix, store', later, w);
      SecondRefills(PickConfig(cs, w), Lookup(store, prefix + key), Pick(r, w), Pick(later, w));
    }
  }

  // ---------------------------------------------------------------- what a status query tells

  /**
   For a live key a status query reports exactly as many requests as would be admitted at once. A key
   without a bucket, for which a whole capacity would be, is reported like one that is used up.
   */
  lemma StatusForesees(cfg: Config, prefix: string, store: Store, d: Dim, n: nat)
    requires Evaluated(d) && n > 0 && d.now <= d.now2
    ensures
      var before := Live(Lookup(store, prefix + d.key.value), d.srv);
      var after := InspectDim(cfg, prefix, store, d);
      if before.None? then !Found(prefix, after, d) && Reported(prefix, after, d) == 0
      else if before.value.tokens > cfg.capacity as real || before.value.lastUpdate > d.now then true
      else
        && (AllAdmitted(cfg, before.value, d.now, n) <==> n <= Reported(prefix, after, d))
        && (Found(prefix, after, d) <==> Refill(cfg, before, d.now) > 0.0)
  {
    var before := Live(Lookup(store, prefix + d.key.value), d.srv);
    if before.Some? && before.value.tokens <= cfg.capacity as real && before.value.lastUpdate <= d.now {
      var b := InspectBucket(cfg, before.value, d.now, d.now2);
      assert Gain(cfg.rate, 0) == 0.0;
      assert Refill(cfg, Some(b), d.now) == b.tokens == Refill(cfg, before, d.now);
      assert Live(Lookup(InspectDim(cfg, prefix, store, d), prefix + d.key.value), d.srv) == Some(b);
      AdmittedAtOnce(cfg, b, d.now, n);
    }
  }

  // ---------------------------------------------------------------- default keys

  /** `None` models a nil request context, which is what `Check` passes to every key function. */
  function DefaultIPKey(clientIP: Option<string>): string {
    if clientIP.Some? then "ip:" + clientIP.value else "ip:unknown"
  }

  function TrimPrefix(s: string, p: string): string {
    if p <= s then s[|p|..] else s
  }

  function DefaultAPIKeyKey(authHeader: Option<string>): string {
    if authHeader.Some? && authHeader.value != "" then "apikey:" + TrimPrefix(authHeader.value, "Bearer ")
    else "apikey:none"
  }

  function DefaultTenantKey(fromContext: Option<string>, header: Option<string>): string {
    if fromContext.Some? && fromContext.value != "" then "tenant:" + fromContext.value
    else if header.Some? && header.value != "" then "tenant:" + header.value
    else "tenant:anonymous"
  }

  /** Keys of different dimensions never meet. */
  lemma DefaultKeysNeverCollide(ip: Option<string>, auth: Option<string>, tenant: Option<string>,
      header: Option<string>, prefix: string)
    ensures
      var a, b, c := prefix + DefaultIPKey(ip), prefix + DefaultAPIKeyKey(auth), prefix + DefaultTenantKey(tenant, header);
      a != b && b != c && a != c
  {
    assert DefaultIPKey(ip)[0] == 'i' && DefaultAPIKeyKey(auth)[0] == 'a' && DefaultTenantKey(tenant, header)[0] == 't';
    PrefixIsInjective(prefix, DefaultIPKey(ip), DefaultAPIKeyKey(auth));
    PrefixIsInjective(prefix, DefaultAPIKeyKey(auth), DefaultTenantKey(tenant, header));
    PrefixIsInjective(prefix, DefaultIPKey(ip), DefaultTenantKey(tenant, header));
  }

  /** A key tells clients apart by their address; one without shares the key of the address "unknown". */
  lemma IPKeysTellClients(a: string, b: string)
    ensures DefaultIPKey(Some(a)) == DefaultIPKey(Some(b)) <==> a == b
    ensures DefaultIPKey(None) == DefaultIPKey(Some(b)) <==> b == "unknown"
  {
    PrefixTellsApart("ip:", a, b);
    PrefixTellsApart("ip:", "unknown", b);
  }

  /** By their token, with or without "Bearer "; one without a header shares the key of the token "none". */
  lemma APIKeysTellClients(a: string, b: string)
    requires a != "" && !("Bearer " <= a)
    ensures DefaultAPIKeyKey(Some("Bearer " + a)) == DefaultAPIKeyKey(Some(a))
    ensures DefaultAPIKeyKey(Some(a)) == DefaultAPIKeyKey(Some("Bearer " + b)) <==> a == b
    ensures DefaultAPIKeyKey(None) == DefaultAPIKeyKey(Some(""))
    ensures DefaultAPIKeyKey(None) == DefaultAPIKeyKey(Some("Bearer " + b)) <==> b == "none"
  {
    BearerKey(a);
    BearerKey(b);
    PlainKey(a);
    PrefixTellsApart("apikey:", a, b);
    PrefixTellsApart("apikey:", "none", b);
  }

  lemma TrimmedOff(p: string, s: string)
    ensures p <= p + s && TrimPrefix(p + s, p) == s
  {
    assert (p + s)[|p|..] == s;
  }

  lemma BearerKey(token: string)
    ensures DefaultAPIKeyKey(Some("Bearer " + token)) == "apikey:" + token
  {
    TrimmedOff("Bearer ", token);
  }

  lemma PlainKey(token: string)
    requires token != "" && !("Bearer " <= token)
    ensures DefaultAPIKeyKey(Some(token)) == "apikey:" + token
  {
  }

  /** By the tenant of the context, or else of the header; one without shares the key of the tenant "anonymous". */
  lemma TenantKeysTellClients(a: string, b: string, header: Option<string>)
    requires a != "" && b != ""
    ensures DefaultTenantKey(Some(a), header) == DefaultTenantKey(Some(b), None) <==> a == b
    ensures DefaultTenantKey(None, Some(a)) == DefaultTenantKey(Some(""), Some(a)) == DefaultTenantKey(Some(a), header)
    ensures DefaultTenantKey(None, None) == DefaultTenantKey(None, Some(""))
    ensures DefaultTenantKey(None, None) == DefaultTenantKey(Some(b), header) <==> b == "anonymous"
  {
    PrefixTellsApart("tenant:", a, b);
    PrefixTellsApart("tenant:", "anonymous", b);
  }

  lemma PrefixTellsApart(prefix: string, a: string, b: string)
    ensures prefix + a == prefix + b <==> a == b
  {
    if a != b {
      PrefixIsInjective(prefix, a, b);
    }
  }

  /** A request as `Check` keys it under the default functions: only the context's tenant counts. */
  predicate DefaultKeyed(r: Request, tenant: Option<string>) {
    && r.ip.key == Some(DefaultIPKey(None))
    && r.apiKey.key == Some(DefaultAPIKeyKey(None))
    && r.tenant.key == Some(DefaultTenantKey(tenant, None))
  }

  const DEFAULT_CONFIGS := Configs(Config(100, 500, 60_000), Config(60, 1000, 60_000), Config(1000, 10_000, 60_000))
}
