/**
 Runs of overlapping calls on the repaired breaker, each an atomic admission, an atomic count and an
 atomic outcome. BreakerLaws says what remains when those interleave.
 */
module BreakerRuns {
  import opened Common
  import opened CircuitBreaker

  /** `Arrive` asks for admission, `Begin` counts an admitted call, `End` records its outcome. */
  datatype Event = Arrive(now: int) | Begin | End(ok: bool, now: int)

  /**
   The breaker, the calls on their way, and what happened: every failure so far, the outcomes
   since the counters were last reset, and the calls admitted in the current half-open episode.
   */
  datatype Sys = Sys(
    b: Breaker,
    admitted: nat,
    running: nat,
    failedAt: seq<int>,
    outcomes: seq<bool>,
    episode: nat,
    clock: int)

  function Start(now: int): Sys {
    Sys(NEW_BREAKER, 0, 0, [], [], 0, now)
  }

  ghost predicate Enabled(s: Sys, e: Event) {
    match e
    case Arrive(now) => now >= s.clock
    case Begin => s.admitted > 0
    case End(_, now) => s.running > 0 && now >= s.clock
  }

  function Next(cfg: Config, s: Sys, e: Event): Sys {
    match e
    case Arrive(now) =>
      var (b, ok) := Allow(Repaired, cfg, s.b, now);
      s.(b := b,
         clock := now,
         admitted := s.admitted + (if ok then 1 else 0),
         episode :=
           if s.b.state == Open && b.state == HalfOpen then 1
           else if s.b.state == HalfOpen && ok then s.episode + 1
           else s.episode)
    case Begin =>
      s.(b := Count(s.b), admitted := if s.admitted > 0 then s.admitted - 1 else 0, running := s.running + 1)
    case End(ok, now) =>
      var b := Outcome(Repaired, cfg, s.b, ok, now);
      s.(b := b,
         clock := now,
         running := if s.running > 0 then s.running - 1 else 0,
         failedAt := if ok then s.failedAt else s.failedAt + [now],
         outcomes := if s.b.state != Open && b.state == Open then [] else s.outcomes + [ok])
  }

  ghost predicate Reaches(cfg: Config, s: Sys, es: seq<Event>, t: Sys)
    decreases es
  {
    if es == [] then s == t else Enabled(s, es[0]) && Reaches(cfg, Next(cfg, s, es[0]), es[1..], t)
  }

  function CountOf(outcomes: seq<bool>, ok: bool): nat {
    if outcomes == [] then 0 else CountOf(outcomes[..|outcomes| - 1], ok) + (if outcomes[|outcomes| - 1] == ok then 1 else 0)
  }

  ghost predicate Inv(cfg: Config, s: Sys) {
    && s.b.failures == CountOf(s.outcomes, false)
    && s.b.successes == CountOf(s.outcomes, true)
    && (forall t <- s.failedAt :: t <= s.clock)
    && (forall t <- s.failedAt :: s.b.lastFailure.Some? && t <= s.b.lastFailure.value)
    && (s.b.lastFailure.Some? ==> s.b.lastFailure.value <= s.clock)
    && (s.b.state == Open ==> s.b.lastFailure.Some?)
    && (s.b.state == HalfOpen ==> s.episode == s.b.halfOpenRequests + 1 && 0 <= s.b.halfOpenRequests)
    && (s.b.state == HalfOpen && cfg.halfOpenMaxRequests >= 0 ==> s.b.halfOpenRequests <= cfg.halfOpenMaxRequests)
  }

  lemma CountsAdd(outcomes: seq<bool>)
    ensures CountOf(outcomes, true) + CountOf(outcomes, false) == |outcomes|
  {
    if outcomes != [] {
      CountsAdd(outcomes[..|outcomes| - 1]);
    }
  }

  ghost predicate EnoughFailures(cfg: Config, seen: seq<bool>) {
    |seen| >= MIN_SAMPLES && 100.0 * CountOf(seen, false) as real >= cfg.failureThreshold * |seen| as real
  }

  /** What a single step may do. */
  ghost predicate Safe(cfg: Config, s: Sys, e: Event) {
    var t := Next(cfg, s, e);
    // only the four edges
    && (s.b.state != t.b.state ==>
          (s.b.state, t.b.state) in {(Closed, Open), (Open, HalfOpen), (HalfOpen, Closed), (HalfOpen, Open)})
    // opening takes ten outcomes since the last reset, enough of them failures
    && (s.b.state != Open && t.b.state == Open ==>
          e.End? && !e.ok && EnoughFailures(cfg, s.outcomes + [false]))
    // an admission while open comes only after the timeout of every failure so far
    && (s.b.state == Open && t.admitted > s.admitted ==>
          e.Arrive? && t.b.state == HalfOpen && forall f <- s.failedAt :: e.now - f > cfg.resetTimeout)
    // a half-open episode admits at most the configured number and the probe that began it
    && (t.b.state == HalfOpen && cfg.halfOpenMaxRequests >= 0 ==> t.episode <= cfg.halfOpenMaxRequests + 1)
  }

  lemma Rate(f: int, n: int, threshold: real)
    requires n >= 1
    ensures f as real / n as real * 100.0 >= threshold <==> 100.0 * f as real >= threshold * n as real
  {
    var q, m := f as real / n as real, n as real;
    assert q * m == f as real;
    assert (q * 100.0 - threshold) * m == 100.0 * (q * m) - threshold * m;
    assert q * 100.0 >= threshold <==> (q * 100.0 - threshold) * m >= 0.0;
  }

  lemma ArriveIsSafe(cfg: Config, s: Sys, e: Event)
    requires e.Arrive? && Inv(cfg, s) && Enabled(s, e)
    ensures Inv(cfg, Next(cfg, s, e)) && Safe(cfg, s, e)
  {
  }

  lemma CountSnoc(outcomes: seq<bool>, ok: bool)
    ensures CountOf(outcomes + [ok], true) == CountOf(outcomes, true) + (if ok then 1 else 0)
    ensures CountOf(outcomes + [ok], false) == CountOf(outcomes, false) + (if ok then 0 else 1)
    ensures CountOf(outcomes + [ok], true) + CountOf(outcomes + [ok], false) == |outcomes| + 1
  {
    assert (outcomes + [ok])[..|outcomes|] == outcomes;
    CountsAdd(outcomes);
  }

  lemma SuccessIsSafe(cfg: Config, s: Sys, e: Event)
    requires e.End? && e.ok && Inv(cfg, s) && Enabled(s, e)
    ensures Inv(cfg, Next(cfg, s, e)) && Safe(cfg, s, e)
  {
    CountSnoc(s.outcomes, true);
  }

  lemma FailureKeepsInv(cfg: Config, s: Sys, e: Event)
    requires e.End? && !e.ok && Inv(cfg, s) && Enabled(s, e)
    ensures Inv(cfg, Next(cfg, s, e))
  {
    CountSnoc(s.outcomes, false);
    assert CountOf([], true) == CountOf([], false) == 0;
    var trips := Tripping(cfg, s.b.failures + 1, s.b.failures + 1 + s.b.successes);
    if trips && s.b.state != Open {
      assert Next(cfg, s, e).b == s.b.(state := Open, failures := 0, successes := 0, lastFailure := Some(e.now));
    } else {
      assert Next(cfg, s, e).b == s.b.(failures := s.b.failures + 1, lastFailure := Some(e.now));
    }
  }

  lemma SampleOfFailures(cfg: Config, outcomes: seq<bool>, failures: int, successes: int)
    requires failures == CountOf(outcomes, false) && successes == CountOf(outcomes, true)
    requires Tripping(cfg, failures + 1, failures + 1 + successes)
    ensures EnoughFailures(cfg, outcomes + [false])
  {
    CountSnoc(outcomes, false);
    Rate(failures + 1, failures + 1 + successes, cfg.failureThreshold);
  }

  lemma FailureIsSafe(cfg: Config, s: Sys, e: Event)
    requires e.End? && !e.ok && Inv(cfg, s) && Enabled(s, e)
    ensures Inv(cfg, Next(cfg, s, e)) && Safe(cfg, s, e)
  {
    FailureKeepsInv(cfg, s, e);
    if s.b.state != Open && Next(cfg, s, e).b.state == Open {
      SampleOfFailures(cfg, s.outcomes, s.b.failures, s.b.successes);
    }
  }

  lemma StepIsSafe(cfg: Config, s: Sys, e: Event)
    requires Inv(cfg, s) && Enabled(s, e)
    ensures Inv(cfg, Next(cfg, s, e)) && Safe(cfg, s, e)
  {
    if e.Arrive? {
      ArriveIsSafe(cfg, s, e);
    } else if e.End? {
      if e.ok {
        SuccessIsSafe(cfg, s, e);
      } else {
        FailureIsSafe(cfg, s, e);
      }
    }
  }

  /** An open breaker opens up again: from some time on it lets through whoever asks first. */
  lemma OpenEnds(cfg: Config, b: Breaker) returns (from: int)
    requires b.state == Open
    ensures forall now :: now > from ==> Allow(Repaired, cfg, b, now) == (b.(state := HalfOpen, halfOpenRequests := 0), true)
    ensures forall now :: now <= from && b.lastFailure.Some? ==> Allow(Repaired, cfg, b, now) == (b, false)
  {
    from := if b.lastFailure.Some? then b.lastFailure.value + cfg.resetTimeout else 0;
  }

  /** Safety over every run of overlapping calls from a new breaker, each step of it. */
  lemma {:induction false} EveryRunIsSafe(cfg: Config, s: Sys, es: seq<Event>, t: Sys, e: Event)
    requires Inv(cfg, s) && Reaches(cfg, s, es, t) && Enabled(t, e)
    ensures Inv(cfg, t) && Safe(cfg, t, e)
    decreases es
  {
    if es == [] {
      StepIsSafe(cfg, t, e);
    } else {
      StepIsSafe(cfg, s, es[0]);
      EveryRunIsSafe(cfg, Next(cfg, s, es[0]), es[1..], t, e);
    }
  }

  lemma StartIsSafe(cfg: Config, now: int)
    ensures Inv(cfg, Start(now))
  {
  }

  // ---------------------------------------------------------------- the state that is left stuck

  /** Half-open with no call under way. */
  ghost predicate Quiescent(s: Sys) {
    s.b.state == HalfOpen && s.admitted == 0 && s.running == 0
  }

  ghost predicate NeverAdmits(cfg: Config, s: Sys) {
    forall es, t, e :: Reaches(cfg, s, es, t) && Enabled(t, e) ==> Next(cfg, t, e).admitted <= t.admitted
  }

  lemma {:induction false} ExhaustedStaysSo(cfg: Config, s: Sys, es: seq<Event>, t: Sys)
    requires Quiescent(s) && s.b.halfOpenRequests >= cfg.halfOpenMaxRequests && Reaches(cfg, s, es, t)
    ensures Quiescent(t) && t.b == s.b
    decreases es
  {
    if es != [] {
      ExhaustedStaysSo(cfg, Next(cfg, s, es[0]), es[1..], t);
    }
  }

  /** A quiet half-open breaker rejects every call forever exactly when its admissions are used up. */
  lemma StuckForever(cfg: Config, s: Sys)
    requires Quiescent(s)
    ensures NeverAdmits(cfg, s) <==> s.b.halfOpenRequests >= cfg.halfOpenMaxRequests
  {
    if s.b.halfOpenRequests >= cfg.halfOpenMaxRequests {
      forall es, t, e | Reaches(cfg, s, es, t) && Enabled(t, e)
        ensures Next(cfg, t, e).admitted <= t.admitted
      {
        ExhaustedStaysSo(cfg, s, es, t);
      }
    } else {
      var e := Arrive(s.clock);
      assert Reaches(cfg, s, [], s) && Enabled(s, e) && Next(cfg, s, e).admitted == 1;
    }
  }
}
