/**
 What of the repaired breaker's safety survives when every atomic step interleaves, and from how many
 threads on it does not.
 */
module BreakerRaces {
  import opened Common
  import opened CircuitBreaker
  import opened BreakerThreads
  import opened BreakerEpisodes
  import opened BreakerSolo

  // ---------------------------------------------------------------- schedules

  ghost predicate Leads(cfg: Config, s: Sys, ts: seq<Turn>, t: Sys) {
    Run(Repaired, cfg, s, ts) == t
  }

  lemma LeadsOn(cfg: Config, s: Sys, xs: seq<Turn>, t: Sys, ys: seq<Turn>, u: Sys)
    requires Leads(cfg, s, xs, t) && Leads(cfg, t, ys, u)
    ensures Leads(cfg, s, xs + ys, u)
  {
    RunSplits(Repaired, cfg, s, xs, ys);
  }

  /** `n` steps of one thread. */
  function Advance(cfg: Config, b: Breaker, pc: PC, now: int, ok: bool, n: nat): (Breaker, PC)
    decreases n
  {
    if n == 0 then (b, pc)
    else var (b1, pc1) := Step(Repaired, cfg, b, pc, now, ok); Advance(cfg, b1, pc1, now, ok, n - 1)
  }

  function Turns(i: nat, now: int, ok: bool, n: nat): seq<Turn> {
    seq(n, _ => Turn(i, now, ok))
  }

  lemma {:induction false} Advances(cfg: Config, s: Sys, i: nat, now: int, ok: bool, n: nat)
    requires i < |s.threads|
    ensures
      var (b, pc) := Advance(cfg, s.b, s.threads[i], now, ok, n);
      Leads(cfg, s, Turns(i, now, ok, n), Sys(b, s.threads[i := pc]))
    decreases n
  {
    if n == 0 {
      assert s.threads[i := s.threads[i]] == s.threads;
    } else {
      var (b1, pc1) := Step(Repaired, cfg, s.b, s.threads[i], now, ok);
      var s1 := Sys(b1, s.threads[i := pc1]);
      Advances(cfg, s1, i, now, ok, n - 1);
      assert Turns(i, now, ok, n)[1..] == Turns(i, now, ok, n - 1);
      var pc := Advance(cfg, b1, pc1, now, ok, n - 1).1;
      assert s1.threads[i := pc] == s.threads[i := pc];
    }
  }

  lemma ToRunning(cfg: Config, b: Breaker, now: int, ok: bool)
    requires b.state == Closed
    ensures Advance(cfg, b, Idle, now, ok, 2) == (Count(b), Running)
  {
    assert Advance(cfg, b, Idle, now, ok, 2) == Advance(cfg, b, Admitted, now, ok, 1);
  }

  lemma ToFailed(cfg: Config, b: Breaker, now: int)
    ensures Advance(cfg, b, Running, now, false, 1) == (b.(failures := b.failures + 1), Failed)
  {
  }

  lemma ToSampled(cfg: Config, b: Breaker, now: int)
    requires b.failures + b.successes >= MIN_SAMPLES
    ensures Advance(cfg, b, Failed, now, false, 3) == (b.(lastFailure := Some(now)), Sampled(b.failures + b.successes))
  {
    var b1 := b.(lastFailure := Some(now));
    assert Advance(cfg, b, Failed, now, false, 3) == Advance(cfg, b1, Stored, now, false, 2);
    assert Advance(cfg, b1, Stored, now, false, 2) == Advance(cfg, b1, Loaded(b1.failures), now, false, 1);
  }

  lemma ToWillOpen(cfg: Config, b: Breaker, total: int, now: int)
    requires Tripping(cfg, b.failures, total)
    ensures Advance(cfg, b, Sampled(total), now, false, 1) == (b, WillOpen)
  {
  }

  function Opened(b: Breaker): Breaker {
    b.(state := Open, failures := 0, successes := 0)
  }

  lemma ToOpen(cfg: Config, b: Breaker, now: int)
    requires b.state != Open
    ensures Advance(cfg, b, WillOpen, now, false, 1) == (Opened(b), Idle)
  {
  }

  lemma ToTimeout(cfg: Config, b: Breaker, now: int)
    requires b.state == Open && TimedOut(cfg, b, now)
    ensures Advance(cfg, b, Idle, now, false, 2) == (b, SawTimeout)
  {
    assert Advance(cfg, b, Idle, now, false, 2) == Advance(cfg, b, SawOpen, now, false, 1);
  }

  lemma ToIdle(cfg: Config, b: Breaker, now: int)
    requires b.state == Closed
    ensures Advance(cfg, b, Running, now, true, 2) == (b.(successes := b.successes + 1), Idle)
  {
    var b1 := b.(successes := b.successes + 1);
    assert Advance(cfg, b, Running, now, true, 2) == Advance(cfg, b1, Succeeded, now, true, 1);
  }

  lemma NoTrip(cfg: Config, f: int)
    requires 1 <= f < MIN_SAMPLES || (f >= 1 && cfg.failureThreshold > 100.0)
    ensures !Tripping(cfg, f, f)
  {
    assert f as real / f as real == 1.0;
  }

  /** A failure of a closed breaker that does not trip it. */
  lemma QuietFailure(cfg: Config, b: Breaker, now: int)
    requires b.state == Closed && b.successes == 0 && b.failures >= 0 && !Tripping(cfg, b.failures + 1, b.failures + 1)
    ensures CallAlone(cfg, b, Probe(false, now))
         == b.(failures := b.failures + 1, totalRequests := b.totalRequests + 1, lastFailure := Some(now))
  {
  }

  /** Failures that are too few for a sample, or below the threshold all together. */
  lemma {:induction false} ClosedFailing(cfg: Config, b: Breaker, n: nat, now: int)
    requires b.state == Closed && b.successes == 0 && b.failures >= 0
    requires n == 0 || b.failures + n < MIN_SAMPLES || cfg.failureThreshold > 100.0
    ensures Calls(cfg, b, Failing(n, now))
         == b.(failures := b.failures + n, totalRequests := b.totalRequests + n,
               lastFailure := if n == 0 then b.lastFailure else Some(now))
    decreases n
  {
    if n > 0 {
      NoTrip(cfg, b.failures + 1);
      QuietFailure(cfg, b, now);
      var b1 := CallAlone(cfg, b, Probe(false, now));
      assert Failing(n, now)[0] == Probe(false, now) && Failing(n, now)[1..] == Failing(n - 1, now);
      ClosedFailing(cfg, b1, n - 1, now);
    }
  }

  // ---------------------------------------------------------------- two threads open any breaker

  /** How many failures a second thread adds between the first one's two loads. */
  function Extra(cfg: Config): nat {
    if cfg.failureThreshold <= 100.0 then 0 else cfg.failureThreshold.Floor + 1
  }

  lemma ExtraTrips(cfg: Config)
    ensures Tripping(cfg, MIN_SAMPLES + Extra(cfg), MIN_SAMPLES)
  {
    var f := MIN_SAMPLES + Extra(cfg);
    assert f as real / 10.0 * 100.0 == 10.0 * f as real;
  }

  /** The first thread is about to open the breaker, the second is inside its call. */
  ghost predicate Primed(s: Sys, now: int) {
    && |s.threads| >= 2 && s.threads == AllIdle(|s.threads|)[0 := WillOpen][1 := Running]
    && s.b.state == Closed && s.b.successes == 0 && s.b.failures >= MIN_SAMPLES && s.b.lastFailure == Some(now)
  }

  /** Nine failures, a tenth up to its first load of the counters. */
  lemma TenthFailure(cfg: Config, threads: nat, now: int) returns (ts: seq<Turn>, s: Sys)
    requires threads >= 1
    ensures Leads(cfg, Start(threads), ts, s) && s.threads == AllIdle(threads)[0 := Sampled(MIN_SAMPLES)]
    ensures s.b == Breaker(Closed, MIN_SAMPLES, 0, MIN_SAMPLES, Some(now), 0) && AtTime(ts, now)
  {
    var s0 := Start(threads);
    var t0 := CallsTurns(cfg, s0, 0, Failing(9, now));
    ClosedFailing(cfg, NEW_BREAKER, 9, now);
    var b1 := Breaker(Closed, 9, 0, 9, Some(now), 0);
    var s1 := Sys(b1, s0.threads);
    assert Leads(cfg, s0, t0, s1);
    ToRunning(cfg, b1, now, false);
    Advances(cfg, s1, 0, now, false, 2);
    var s2 := Sys(Count(b1), s1.threads[0 := Running]);
    ToFailed(cfg, s2.b, now);
    Advances(cfg, s2, 0, now, false, 1);
    var s3 := Sys(s2.b.(failures := 10), s1.threads[0 := Failed]);
    assert s2.threads[0 := Failed] == s3.threads;
    ToSampled(cfg, s3.b, now);
    Advances(cfg, s3, 0, now, false, 3);
    s := Sys(s3.b, s1.threads[0 := Sampled(10)]);
    assert s3.threads[0 := Sampled(10)] == s.threads && s3.b.(lastFailure := Some(now)) == s3.b;
    LeadsOn(cfg, s0, t0, s1, Turns(0, now, false, 2), s2);
    LeadsOn(cfg, s0, t0 + Turns(0, now, false, 2), s2, Turns(0, now, false, 1), s3);
    ts := t0 + Turns(0, now, false, 2) + Turns(0, now, false, 1);
    LeadsOn(cfg, s0, ts, s3, Turns(0, now, false, 3), s);
    ts := ts + Turns(0, now, false, 3);
  }

  lemma Primes(cfg: Config, threads: nat, now: int) returns (ts: seq<Turn>, s: Sys)
    requires threads >= 2
    ensures Leads(cfg, Start(threads), ts, s) && |s.threads| == threads && Primed(s, now) && AtTime(ts, now)
  {
    var s0 := Start(threads);
    var t1, s1 := TenthFailure(cfg, threads, now);
    var n := Extra(cfg);
    var t2 := CallsTurns(cfg, s1, 1, Failing(n, now));
    ClosedFailing(cfg, s1.b, n, now);
    var s2 := Sys(Calls(cfg, s1.b, Failing(n, now)), s1.threads);
    ToRunning(cfg, s2.b, now, false);
    Advances(cfg, s2, 1, now, false, 2);
    var s3 := Sys(Count(s2.b), s2.threads[1 := Running]);
    ExtraTrips(cfg);
    ToWillOpen(cfg, s3.b, MIN_SAMPLES, now);
    Advances(cfg, s3, 0, now, false, 1);
    s := Sys(s3.b, s3.threads[0 := WillOpen]);
    assert s.threads == AllIdle(threads)[0 := WillOpen][1 := Running];
    LeadsOn(cfg, s0, t1, s1, t2, s2);
    LeadsOn(cfg, s0, t1 + t2, s2, Turns(1, now, false, 2), s3);
    ts := t1 + t2 + Turns(1, now, false, 2);
    LeadsOn(cfg, s0, ts, s3, Turns(0, now, false, 1), s);
    ts := ts + Turns(0, now, false, 1);
  }
}
