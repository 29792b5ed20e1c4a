/** Whole runs of one token bucket, and the admission bound over every window of them. */
module BucketRuns {
  import opened Common
  import opened TokenBucket

  /** A touch of one key: a `Check`, or a `GetTokens` with its two clock readings. */
  datatype Event =
    | Check(cfg: Config, now: int, srv: int)
    | Inspect(cfg: Config, now: int, now2: int, srv: int)

  // ---------------------------------------------------------------- runs that never forget

  /** A bucket without a TTL. */
  function Step(s: Option<Bucket>, e: Event): (Option<Bucket>, bool) {
    match e
    case Check(cfg, now, _) => var (b, ok) := Admit(cfg, s, now); (Some(b), ok)
    case Inspect(cfg, now, now2, _) =>
      (if s.None? then None else Some(InspectBucket(cfg, s.value, now, now2)), false)
  }

  function Run(s: Option<Bucket>, es: seq<Event>): Option<Bucket>
    decreases es
  {
    if es == [] then s else Run(Step(s, es[0]).0, es[1..])
  }

  function Admissions(s: Option<Bucket>, es: seq<Event>): nat
    decreases es
  {
    if es == [] then 0
    else (if Step(s, es[0]).1 then 1 else 0) + Admissions(Step(s, es[0]).0, es[1..])
  }

  /** No step of the run refills faster than `rate` per second would. */
  ghost predicate Paced(s: Option<Bucket>, es: seq<Event>, rate: int)
    decreases es
  {
    es != [] ==>
      && (s.Some? ==>
            Gain(es[0].cfg.rate, es[0].now - s.value.lastUpdate)
            <= Gain(rate, es[0].now - s.value.lastUpdate))
      && Paced(Step(s, es[0]).0, es[1..], rate)
  }

  /** Tokens discounted by time: no step raises it, and an admission lowers it by one. */
  function Potential(b: Bucket, rate: int): real {
    b.tokens - Gain(rate, b.lastUpdate)
  }

  lemma GainSplits(rate: int, d1: int, d2: int)
    ensures Gain(rate, d1 + d2) == Gain(rate, d1) + Gain(rate, d2)
  {
    var x, y, r := d1 as real / 1000.0, d2 as real / 1000.0, rate as real;
    assert (x + y) * r == x * r + y * r;
  }

  lemma {:induction false} StepPotential(b: Bucket, e: Event, rate: int)
    requires Gain(e.cfg.rate, e.now - b.lastUpdate) <= Gain(rate, e.now - b.lastUpdate)
    ensures Step(Some(b), e).0.Some?
    ensures Potential(Step(Some(b), e).0.value, rate) + (if Step(Some(b), e).1 then 1.0 else 0.0)
         <= Potential(b, rate)
  {
    GainSplits(rate, b.lastUpdate, e.now - b.lastUpdate);
  }

  lemma {:induction false} RunPotential(b: Bucket, es: seq<Event>, rate: int)
    requires Paced(Some(b), es, rate)
    ensures Run(Some(b), es).Some?
    ensures Potential(Run(Some(b), es).value, rate) + Admissions(Some(b), es) as real <= Potential(b, rate)
    decreases es
  {
    if es != [] {
      StepPotential(b, es[0], rate);
      RunPotential(Step(Some(b), es[0]).0.value, es[1..], rate);
    }
  }

  lemma {:induction false} RunSplits(s: Option<Bucket>, xs: seq<Event>, ys: seq<Event>)
    ensures Run(s, xs + ys) == Run(Run(s, xs), ys)
    ensures Admissions(s, xs + ys) == Admissions(s, xs) + Admissions(Run(s, xs), ys)
    decreases xs
  {
    if xs == [] {
      assert xs + ys == ys;
    } else {
      assert (xs + ys)[0] == xs[0] && (xs + ys)[1..] == xs[1..] + ys;
      RunSplits(Step(s, xs[0]).0, xs[1..], ys);
    }
  }

  /** From a check to an admitted check, in any paced run and from any bucket. */
  lemma PacedBound(s: Option<Bucket>, es: seq<Event>, rate: int)
    requires es != [] && es[0].Check? && es[|es| - 1].Check?
    requires Paced(Step(s, es[0]).0, es[1..], rate)
    requires Step(Run(s, es[..|es| - 1]), es[|es| - 1]).1
    ensures Admissions(s, es) as real
         <= es[0].cfg.capacity as real + Gain(rate, es[|es| - 1].now - es[0].now)
  {
    var n := |es|;
    var first := Step(s, es[0]).0.value;
    assert first.tokens <= es[0].cfg.capacity as real - (if Step(s, es[0]).1 then 1.0 else 0.0);
    RunPotential(first, es[1..], rate);
    var last := Run(s, es).value;
    assert last.tokens >= 0.0 && last.lastUpdate == es[n - 1].now by {
      assert es == es[..n - 1] + [es[n - 1]];
      RunSplits(s, es[..n - 1], [es[n - 1]]);
    }
    GainSplits(rate, es[0].now, es[n - 1].now - es[0].now);
  }

  lemma {:induction false} UniformIsPaced(s: Option<Bucket>, es: seq<Event>, rate: int)
    requires forall e <- es :: e.cfg.rate == rate
    ensures Paced(s, es, rate)
    decreases es
  {
    if es != [] {
      UniformIsPaced(Step(s, es[0]).0, es[1..], rate);
    }
  }

  /** Both clocks only move forward, and the gateway's at least as fast as the server's. */
  ghost predicate Monotone(es: seq<Event>, now: int, srv: int) {
    es != [] ==>
      && srv <= es[0].srv && es[0].srv - srv <= es[0].now - now
      && (es[0].Inspect? ==> es[0].now <= es[0].now2)
      && Monotone(es[1..], if es[0].Check? then es[0].now else es[0].now2, es[0].srv)
  }

  lemma FasterGains(slow: int, fast: int, elapsed: int)
    requires slow <= fast && elapsed >= 0
    ensures Gain(slow, elapsed) <= Gain(fast, elapsed)
  {
    var d := elapsed as real / 1000.0;
    assert d * (fast - slow) as real >= 0.0;
    assert d * fast as real == d * slow as real + d * (fast - slow) as real;
  }

  lemma {:induction false} MonotoneIsPaced(s: Option<Bucket>, es: seq<Event>, rate: int, now: int, srv: int)
    requires Monotone(es, now, srv) && (s.Some? ==> s.value.lastUpdate <= now)
    requires forall e <- es :: e.cfg.rate <= rate
    ensures Paced(s, es, rate)
    decreases es
  {
    if es != [] {
      if s.Some? {
        FasterGains(es[0].cfg.rate, rate, es[0].now - s.value.lastUpdate);
      }
      MonotoneIsPaced(Step(s, es[0]).0, es[1..], rate,
                      if es[0].Check? then es[0].now else es[0].now2, es[0].srv);
    }
  }

  lemma RunPrefix(s: Option<Bucket>, es: seq<Event>, i: nat, j: nat)
    requires i <= j <= |es|
    ensures Run(s, es[..j]) == Run(Run(s, es[..i]), es[i..j])
  {
    assert es[..j] == es[..i] + es[i..j];
    RunSplits(s, es[..i], es[i..j]);
  }

  /** The admission bound: every window of every run under one rate, whatever the clock does. */
  lemma WindowBound(cfg: Config, s: Option<Bucket>, es: seq<Event>, i: nat, j: nat)
    requires i <= j < |es| && es[i].Check? && es[j].Check?
    requires forall e <- es :: e.cfg == cfg
    requires Step(Run(s, es[..j]), es[j]).1
    ensures Within(cfg, Admissions(Run(s, es[..i]), es[i..j + 1]), es[j].now - es[i].now)
  {
    var w := es[i..j + 1];
    var at := Run(s, es[..i]);
    RunPrefix(s, es, i, j);
    assert w[..|w| - 1] == es[i..j];
    UniformIsPaced(Step(at, w[0]).0, w[1..], cfg.rate);
    PacedBound(at, w, cfg.rate);
  }

  /** Per-call configurations on one key: the fastest rate and the largest capacity bound every window. */
  lemma MixedWindowBound(s: Option<Bucket>, es: seq<Event>, i: nat, j: nat, rate: int, capacity: int,
      now: int, srv: int)
    requires i <= j < |es| && es[i].Check? && es[j].Check?
    requires Monotone(es, now, srv)
    requires forall e <- es :: e.cfg.rate <= rate && e.cfg.capacity <= capacity
    requires Step(Run(s, es[..j]), es[j]).1
    ensures Within(Config(rate, capacity, 0), Admissions(Run(s, es[..i]), es[i..j + 1]), es[j].now - es[i].now)
  {
    var w := es[i..j + 1];
    var at := Run(s, es[..i]);
    RunPrefix(s, es, i, j);
    assert w[..|w| - 1] == es[i..j];
    MonotoneSlice(es, i, j + 1, now, srv);
    MonotoneIsPaced(Step(at, w[0]).0, w[1..], rate, w[0].now, w[0].srv);
    PacedBound(at, w, rate);
  }

  lemma {:induction false} MonotoneSlice(es: seq<Event>, i: nat, j: nat, now: int, srv: int)
    requires Monotone(es, now, srv) && i < j <= |es| && es[i].Check?
    ensures Monotone(es[i..j][1..], es[i].now, es[i].srv)
  {
    if i == 0 {
      MonotonePrefix(es[1..], j - 1, es[0].now, es[0].srv);
      assert es[0..j][1..] == es[1..][..j - 1];
    } else {
      MonotoneSlice(es[1..], i - 1, j - 1, if es[0].Check? then es[0].now else es[0].now2, es[0].srv);
      assert es[1..][i - 1..j - 1] == es[i..j];
    }
  }

  lemma {:induction false} MonotonePrefix(es: seq<Event>, j: nat, now: int, srv: int)
    requires Monotone(es, now, srv) && j <= |es|
    ensures Monotone(es[..j], now, srv)
  {
    if j > 0 {
      MonotonePrefix(es[1..], j - 1, if es[0].Check? then es[0].now else es[0].now2, es[0].srv);
      assert es[..j][1..] == es[1..][..j - 1];
    }
  }
}
