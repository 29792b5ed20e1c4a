/** Key expiry and `GetTokens` against a store that never forgets and is never inspected. */
module BucketExpiry {
  import opened Common
  import opened TokenBucket
  import opened BucketRuns

  /** A whole TTL refills the bucket. */
  predicate TtlRefills(cfg: Config) {
    cfg.rate >= 0 && cfg.rate * TtlSeconds(cfg) >= cfg.capacity
  }

  ghost predicate Uses(es: seq<Event>, cfg: Config) {
    forall e <- es :: e.cfg == cfg
  }

  /** The answers Redis gives: keys expire, and inspections rewrite the hash but not the TTL. */
  function Forgetful(entry: Option<Entry>, es: seq<Event>): seq<Answer>
    decreases es
  {
    if es == [] then []
    else
      match es[0]
      case Check(cfg, now, srv) =>
        var (after, answer) := CheckEntry(cfg, entry, now, srv);
        [answer] + Forgetful(Some(after), es[1..])
      case Inspect(cfg, now, now2, srv) =>
        Forgetful(InspectEntry(cfg, entry, now, now2, srv), es[1..])
  }

  /** The answers of the reference: no TTL, inspections change nothing. */
  function Retaining(s: Option<Bucket>, es: seq<Event>): seq<Answer>
    decreases es
  {
    if es == [] then []
    else if es[0].Inspect? then Retaining(s, es[1..])
    else
      var (b, ok) := Admit(es[0].cfg, s, es[0].now);
      [Answer(ok, b.tokens)] + Retaining(Some(b), es[1..])
  }

  /** What links an entry in Redis to the reference bucket between two events. */
  ghost predicate Linked(cfg: Config, entry: Option<Entry>, s: Option<Bucket>, now: int, srv: int) {
    match (entry, s)
    case (None, None) => true
    case (Some(e), Some(b)) =>
      && (b.tokens >= 0.0 || b.tokens >= cfg.capacity as real)
      && b.tokens <= cfg.capacity as real
      && b.lastUpdate <= e.bucket.lastUpdate <= now
      && now - b.lastUpdate >= srv - (e.deadline - 1000 * TtlSeconds(cfg))
      && e.bucket.tokens == Refill(cfg, s, e.bucket.lastUpdate)
    case _ => false
  }

  lemma GainGrows(rate: int, d1: int, d2: int)
    requires rate >= 0 && d1 <= d2
    ensures Gain(rate, d1) <= Gain(rate, d2)
  {
    assert (d2 as real / 1000.0 - d1 as real / 1000.0) * (rate as real) >= 0.0;
    GainSplits(rate, d1, d2 - d1);
  }

  /** Refilling at a stop on the way changes nothing. */
  lemma RefillInTwoSteps(cfg: Config, b: Bucket, stop: int, now: int)
    requires cfg.rate >= 0 && b.lastUpdate <= stop <= now
    ensures Refill(cfg, Some(Bucket(Refill(cfg, Some(b), stop), stop)), now) == Refill(cfg, Some(b), now)
  {
    GainSplits(cfg.rate, stop - b.lastUpdate, now - stop);
    GainGrows(cfg.rate, 0, now - stop);
  }

  lemma FullAfterTtl(cfg: Config, b: Bucket, now: int)
    requires TtlRefills(cfg)
    requires b.tokens >= 0.0 || (b.tokens >= cfg.capacity as real && b.lastUpdate <= now)
    requires now - b.lastUpdate >= 1000 * TtlSeconds(cfg)
    ensures Refill(cfg, Some(b), now) == cfg.capacity as real
  {
    GainGrows(cfg.rate, 1000 * TtlSeconds(cfg), now - b.lastUpdate);
    TtlGain(cfg);
    if b.lastUpdate <= now {
      GainGrows(cfg.rate, 0, now - b.lastUpdate);
    }
  }

  lemma TtlGain(cfg: Config)
    ensures Gain(cfg.rate, 1000 * TtlSeconds(cfg)) == (cfg.rate * TtlSeconds(cfg)) as real
  {
    var t := TtlSeconds(cfg);
    assert (1000 * t) as real / 1000.0 == t as real;
    assert t as real * cfg.rate as real == (cfg.rate * t) as real;
  }

  lemma CheckKeepsLink(cfg: Config, entry: Option<Entry>, s: Option<Bucket>, now0: int, srv0: int, now: int, srv: int)
    requires TtlRefills(cfg)
    requires Linked(cfg, entry, s, now0, srv0) && srv0 <= srv && srv - srv0 <= now - now0
    ensures
      var (after, answer) := CheckEntry(cfg, entry, now, srv);
      var (b, ok) := Admit(cfg, s, now);
      && answer == Answer(ok, b.tokens)
      && Linked(cfg, Some(after), Some(b), now, srv)
  {
    assert Refill(cfg, Live(entry, srv), now) == Refill(cfg, s, now) by {
      if entry.Some? {
        var e, b := entry.value, s.value;
        if srv < e.deadline {
          RefillInTwoSteps(cfg, b, e.bucket.lastUpdate, now);
        } else {
          FullAfterTtl(cfg, b, now);
        }
      }
    }
    if s.Some? {
      GainGrows(cfg.rate, 0, now - s.value.lastUpdate);
    }
    var (b, ok) := Admit(cfg, s, now);
    assert Gain(cfg.rate, 0) == 0.0;
  }

  lemma {:induction false} InspectKeepsLink(cfg: Config, entry: Option<Entry>, s: Option<Bucket>, now0: int, srv0: int,
      now: int, now2: int, srv: int)
    requires cfg.rate >= 0
    requires Linked(cfg, entry, s, now0, srv0) && srv0 <= srv && srv - srv0 <= now - now0 && now <= now2
    ensures Linked(cfg, InspectEntry(cfg, entry, now, now2, srv), s, now2, srv)
  {
    if entry.Some? && srv < entry.value.deadline {
      RefillInTwoSteps(cfg, s.value, entry.value.bucket.lastUpdate, now);
    }
  }

  lemma {:induction false} LinkedRunsAgree(cfg: Config, entry: Option<Entry>, s: Option<Bucket>,
      es: seq<Event>, now: int, srv: int)
    requires TtlRefills(cfg)
    requires Uses(es, cfg) && Monotone(es, now, srv) && Linked(cfg, entry, s, now, srv)
    ensures Forgetful(entry, es) == Retaining(s, es)
    decreases es
  {
    if es != [] {
      match es[0]
      case Check(_, t, v) =>
        CheckKeepsLink(cfg, entry, s, now, srv, t, v);
        LinkedRunsAgree(cfg, Some(CheckEntry(cfg, entry, t, v).0), Some(Admit(cfg, s, t).0), es[1..], t, v);
      case Inspect(_, t, t2, v) =>
        InspectKeepsLink(cfg, entry, s, now, srv, t, t2, v);
        LinkedRunsAgree(cfg, InspectEntry(cfg, entry, t, t2, v), s, es[1..], t2, v);
    }
  }

  /** `n` checks at time 0, then one at `late`. */
  function Drain(cfg: Config, n: nat, late: int): seq<Event> {
    if n == 0 then [Check(cfg, late, late)] else [Check(cfg, 0, 0)] + Drain(cfg, n - 1, late)
  }

  lemma {:induction false} DrainShape(cfg: Config, n: nat, late: nat)
    ensures Uses(Drain(cfg, n, late), cfg) && Monotone(Drain(cfg, n, late), 0, 0)
  {
    if n > 0 {
      DrainShape(cfg, n - 1, late);
    }
  }

  /** The last answer of a drain: the reference has only what `late` refilled. */
  lemma {:induction false} DrainRetaining(cfg: Config, s: Option<Bucket>, n: nat, late: nat)
    requires cfg.rate >= 0 && Gain(cfg.rate, late) < cfg.capacity as real && Refill(cfg, s, 0) == n as real
    requires s.Some? ==> s.value == Bucket(n as real, 0)
    requires n == 0 ==> s.Some?
    ensures Retaining(s, Drain(cfg, n, late)) != []
    ensures
      var last := Retaining(s, Drain(cfg, n, late))[|Retaining(s, Drain(cfg, n, late))| - 1];
      last.allowed ==> last.tokens < cfg.capacity as real - 1.0
    decreases n
  {
    assert Gain(cfg.rate, 0) == 0.0;
    if n > 0 {
      var b := Admit(cfg, s, 0).0;
      assert b == Bucket((n - 1) as real, 0);
      assert Refill(cfg, Some(b), 0) == (n - 1) as real;
      DrainRetaining(cfg, Some(b), n - 1, late);
      assert Drain(cfg, n, late)[1..] == Drain(cfg, n - 1, late);
    }
  }

  /** ... while Redis has forgotten the key by then. */
  lemma {:induction false} DrainForgetful(cfg: Config, entry: Option<Entry>, n: nat, late: nat)
    requires cfg.capacity >= 1 && late >= 1000 * TtlSeconds(cfg)
    requires n == 0 ==> entry.Some? && entry.value.deadline <= late
    ensures Forgetful(entry, Drain(cfg, n, late)) != []
    ensures
      Forgetful(entry, Drain(cfg, n, late))[|Forgetful(entry, Drain(cfg, n, late))| - 1]
      == Answer(true, cfg.capacity as real - 1.0)
    decreases n
  {
    if n > 0 {
      DrainForgetful(cfg, Some(CheckEntry(cfg, entry, 0, 0).0), n - 1, late);
      assert Drain(cfg, n, late)[1..] == Drain(cfg, n - 1, late);
    }
  }

  /** A window too short to refill the bucket is noticed. */
  lemma ShortTtlIsNoticed(cfg: Config)
    requires cfg.rate >= 0 && cfg.capacity >= 1 && cfg.rate * TtlSeconds(cfg) < cfg.capacity
    ensures exists es :: Uses(es, cfg) && Monotone(es, 0, 0) && Forgetful(None, es) != Retaining(None, es)
  {
    var late := if TtlSeconds(cfg) > 0 then 1000 * TtlSeconds(cfg) else 0;
    assert Gain(cfg.rate, late) < cfg.capacity as real by {
      TtlGain(cfg);
      assert Gain(cfg.rate, 0) == 0.0;
    }
    DrainShape(cfg, cfg.capacity, late);
    DrainRetaining(cfg, None, cfg.capacity, late);
    DrainForgetful(cfg, None, cfg.capacity, late);
    assert Forgetful(None, Drain(cfg, cfg.capacity, late)) != Retaining(None, Drain(cfg, cfg.capacity, late));
  }

  /** No run of checks, on any clocks, can tell that keys expire and are inspected. */
  ghost predicate ExpiryHidden(cfg: Config) {
    forall es, now, srv :: Uses(es, cfg) && Monotone(es, now, srv) ==> Forgetful(None, es) == Retaining(None, es)
  }

  lemma LongTtlHidesExpiry(cfg: Config)
    requires TtlRefills(cfg)
    ensures ExpiryHidden(cfg)
  {
    forall es, now, srv | Uses(es, cfg) && Monotone(es, now, srv)
      ensures Forgetful(None, es) == Retaining(None, es)
    {
      LinkedRunsAgree(cfg, None, None, es, now, srv);
    }
  }

  /** Expiry and inspection stay hidden exactly when a whole TTL refills the bucket. */
  lemma ExpiryUnobservable(cfg: Config)
    requires cfg.rate >= 0 && cfg.capacity >= 1
    ensures ExpiryHidden(cfg) <==> TtlRefills(cfg)
  {
    if TtlRefills(cfg) {
      LongTtlHidesExpiry(cfg);
    } else {
      ShortTtlIsNoticed(cfg);
    }
  }
}
