/**
 The repaired breaker under every schedule of atomic steps: which of the laws of `BreakerRuns`, where a
 call is two steps, still hold, and for how many threads.
 */
module BreakerLaws {
  import opened Common
  import opened CircuitBreaker
  import opened BreakerThreads
  import opened BreakerEpisodes
  import opened BreakerSolo
  import opened BreakerRaces
  import R = BreakerRuns

  predicate Opens(cfg: Config, s: Sys, t: Turn) {
    s.b.state != Open && Next(Repaired, cfg, s, t).b.state == Open
  }

  /** Only the four edges, whatever the schedule. */
  lemma OnlyTheEdges(cfg: Config, s: Sys, t: Turn)
    ensures
      var u := Next(Repaired, cfg, s, t);
      s.b.state != u.b.state ==>
        (s.b.state, u.b.state) in {(Closed, Open), (Open, HalfOpen), (HalfOpen, Closed), (HalfOpen, Open)}
  {
  }

  // ---------------------------------------------------------------- outcomes since the last opening

  function SeenStep(cfg: Config, s: Sys, t: Turn, past: seq<bool>): seq<bool> {
    if Opens(cfg, s, t) then []
    else if t.thread < |s.threads| && s.threads[t.thread] == Running then past + [t.ok]
    else past
  }

  /** The outcomes that reached the counters since they were last reset. */
  function Seen(cfg: Config, s: Sys, ts: seq<Turn>, past: seq<bool>): seq<bool>
    decreases ts
  {
    if ts == [] then past
    else Seen(cfg, Next(Repaired, cfg, s, ts[0]), ts[1..], SeenStep(cfg, s, ts[0], past))
  }

  ghost predicate Counted(b: Breaker, seen: seq<bool>) {
    b.failures == R.CountOf(seen, false) && b.successes == R.CountOf(seen, true)
  }

  lemma StepCounts(cfg: Config, s: Sys, t: Turn, past: seq<bool>)
    requires Counted(s.b, past)
    ensures Counted(Next(Repaired, cfg, s, t).b, SeenStep(cfg, s, t, past))
  {
    R.CountSnoc(past, t.ok);
    assert R.CountOf([], true) == R.CountOf([], false) == 0;
  }

  lemma {:induction false} SeenCounts(cfg: Config, s: Sys, ts: seq<Turn>, past: seq<bool>)
    requires Counted(s.b, past)
    ensures Counted(Run(Repaired, cfg, s, ts).b, Seen(cfg, s, ts, past))
    decreases ts
  {
    if ts != [] {
      StepCounts(cfg, s, ts[0], past);
      SeenCounts(cfg, Next(Repaired, cfg, s, ts[0]), ts[1..], SeenStep(cfg, s, ts[0], past));
    }
  }

  // ---------------------------------------------------------------- one thread

  /** What a thread on its own has loaded is still so. */
  ghost predicate Fresh(cfg: Config, s: Sys) {
    && |s.threads| <= 1
    && (|s.threads| == 1 ==>
          match s.threads[0]
          case Loaded(f) => f == s.b.failures
          case Sampled(total) => total == s.b.failures + s.b.successes
          case WillOpen => Tripping(cfg, s.b.failures, s.b.failures + s.b.successes)
          case _ => true)
  }

  lemma StepIsFresh(cfg: Config, s: Sys, t: Turn)
    requires Fresh(cfg, s)
    ensures Fresh(cfg, Next(Repaired, cfg, s, t))
  {
  }

  lemma {:induction false} RunIsFresh(cfg: Config, s: Sys, ts: seq<Turn>)
    requires Fresh(cfg, s)
    ensures Fresh(cfg, Run(Repaired, cfg, s, ts))
    decreases ts
  {
    if ts != [] {
      StepIsFresh(cfg, s, ts[0]);
      RunIsFresh(cfg, Next(Repaired, cfg, s, ts[0]), ts[1..]);
    }
  }

  lemma FreshOpening(cfg: Config, s: Sys, t: Turn, seen: seq<bool>)
    requires Fresh(cfg, s) && Counted(s.b, seen) && Opens(cfg, s, t)
    ensures R.EnoughFailures(cfg, seen)
  {
    R.CountsAdd(seen);
    TrippingIsEnough(cfg, seen, s.b.failures);
  }

  // ---------------------------------------------------------------- openings

  /** Every opening, on every schedule, comes with ten outcomes since the last one and enough failures among them. */
  ghost predicate AlwaysJustified(cfg: Config, threads: nat) {
    forall ts, t :: Opens(cfg, Run(Repaired, cfg, Start(threads), ts), t) ==>
      R.EnoughFailures(cfg, Seen(cfg, Start(threads), ts, []))
  }

  lemma AloneIsJustified(cfg: Config, threads: nat)
    requires threads <= 1
    ensures AlwaysJustified(cfg, threads)
  {
    forall ts, t | Opens(cfg, Run(Repaired, cfg, Start(threads), ts), t)
      ensures R.EnoughFailures(cfg, Seen(cfg, Start(threads), ts, []))
    {
      RunIsFresh(cfg, Start(threads), ts);
      SeenCounts(cfg, Start(threads), ts, []);
      FreshOpening(cfg, Run(Repaired, cfg, Start(threads), ts), t, Seen(cfg, Start(threads), ts, []));
    }
  }

  /** The second thread gets ready to open as well, before the first one does and probes. */
  lemma StaleOpening(cfg: Config, threads: nat) returns (ts: seq<Turn>, s: Sys)
    requires threads >= 2 && cfg.failureThreshold <= 100.0
    ensures Leads(cfg, Start(threads), ts, s) && |s.threads| == threads && s.threads[1] == WillOpen
    ensures s.b.state == HalfOpen && s.b.failures == 0 && s.b.successes == 0
  {
    var s0 := Start(threads);
    var t1, s1 := Primes(cfg, threads, 0);
    var t2, s2 := SecondWillOpen(cfg, s1);
    ToOpen(cfg, s2.b, 0);
    Advances(cfg, s2, 0, 0, false, 1);
    var s3 := Sys(Opened(s2.b), s2.threads[0 := Idle]);
    var later := Later(cfg, 0);
    ToHalfOpen(cfg, s3.b, later);
    Advances(cfg, s3, 0, later, false, 3);
    s := Sys(s3.b.(state := HalfOpen, halfOpenRequests := 0), s3.threads[0 := Admitted]);
    LeadsOn(cfg, s0, t1, s1, t2, s2);
    LeadsOn(cfg, s0, t1 + t2, s2, Turns(0, 0, false, 1), s3);
    ts := t1 + t2 + Turns(0, 0, false, 1);
    LeadsOn(cfg, s0, ts, s3, Turns(0, later, false, 3), s);
    ts := ts + Turns(0, later, false, 3);
  }

  lemma SecondWillOpen(cfg: Config, s: Sys) returns (ts: seq<Turn>, u: Sys)
    requires Primed(s, 0) && cfg.failureThreshold <= 100.0
    ensures Leads(cfg, s, ts, u) && u.threads == s.threads[1 := WillOpen]
    ensures u.b == s.b.(failures := s.b.failures + 1, lastFailure := Some(0))
  {
    var b := s.b.(failures := s.b.failures + 1);
    var s1 := Sys(b, s.threads[1 := Failed]);
    ToFailed(cfg, s.b, 0);
    Advances(cfg, s, 1, 0, false, 1);
    ToSampled(cfg, b, 0);
    Advances(cfg, s1, 1, 0, false, 3);
    var s2 := Sys(b.(lastFailure := Some(0)), s.threads[1 := Sampled(b.failures)]);
    assert s1.threads[1 := Sampled(b.failures)] == s2.threads;
    AllFailuresTrip(cfg, b.failures);
    ToWillOpen(cfg, s2.b, b.failures, 0);
    Advances(cfg, s2, 1, 0, false, 1);
    u := Sys(s2.b, s.threads[1 := WillOpen]);
    assert s2.threads[1 := WillOpen] == u.threads;
    LeadsOn(cfg, s, Turns(1, 0, false, 1), s1, Turns(1, 0, false, 3), s2);
    ts := Turns(1, 0, false, 1) + Turns(1, 0, false, 3);
    LeadsOn(cfg, s, ts, s2, Turns(1, 0, false, 1), u);
    ts := ts + Turns(1, 0, false, 1);
  }

  /** A time at which a failure at `now` has timed out. */
  function Later(cfg: Config, now: int): (later: int)
    ensures later >= now && later - now > cfg.resetTimeout
  {
    if cfg.resetTimeout < 0 then now else now + cfg.resetTimeout + 1
  }

  lemma ToHalfOpen(cfg: Config, b: Breaker, now: int)
    requires b.state == Open && TimedOut(cfg, b, now)
    ensures Advance(cfg, b, Idle, now, false, 3) == (b.(state := HalfOpen, halfOpenRequests := 0), Admitted)
  {
    assert Advance(cfg, b, Idle, now, false, 3) == Advance(cfg, b, SawOpen, now, false, 2);
    assert Advance(cfg, b, SawOpen, now, false, 2) == Advance(cfg, b, SawTimeout, now, false, 1);
  }

  lemma UnjustifiedOpening(cfg: Config, threads: nat)
    requires threads >= 2
    ensures !AlwaysJustified(cfg, threads)
  {
    if cfg.failureThreshold <= 100.0 {
      var ts, s := StaleOpening(cfg, threads);
      var seen := Seen(cfg, Start(threads), ts, []);
      SeenCounts(cfg, Start(threads), ts, []);
      R.CountsAdd(seen);
      assert Opens(cfg, Run(Repaired, cfg, Start(threads), ts), Turn(1, 0, false));
    } else {
      var ts, s := Primes(cfg, threads, 0);
      TooFewFailures(cfg, Seen(cfg, Start(threads), ts, []));
      assert Opens(cfg, Run(Repaired, cfg, Start(threads), ts), Turn(0, 0, false));
    }
  }

  /** Every opening is justified if and only if there is at most one thread, whatever the configuration. */
  lemma OpeningsAreJustified(cfg: Config, threads: nat)
    ensures AlwaysJustified(cfg, threads) <==> threads <= 1
  {
    if threads <= 1 {
      AloneIsJustified(cfg, threads);
    } else {
      UnjustifiedOpening(cfg, threads);
    }
  }

  // ---------------------------------------------------------------- which breakers open at all

  /** Failures can trip the breaker: one thread's by the threshold, two threads' always. */
  predicate CanTrip(cfg: Config, threads: nat) {
    threads >= 1 && (cfg.failureThreshold <= 100.0 || threads >= 2)
  }

  /** The breaker opens and leaves nobody inside a call. */
  lemma OpensQuietly(cfg: Config, threads: nat, now: int) returns (ts: seq<Turn>, s: Sys)
    requires CanTrip(cfg, threads)
    ensures Leads(cfg, Start(threads), ts, s) && s.threads == AllIdle(threads)
    ensures JustOpened(s.b) && s.b.lastFailure == Some(now)
  {
    if threads >= 2 {
      ts, s := TwoOpen(cfg, threads, now);
    } else {
      ts, s := OneOpens(cfg, threads, now);
    }
  }

  lemma OneOpens(cfg: Config, threads: nat, now: int) returns (ts: seq<Turn>, s: Sys)
    requires threads >= 1 && cfg.failureThreshold <= 100.0
    ensures Leads(cfg, Start(threads), ts, s) && s.threads == AllIdle(threads)
    ensures JustOpened(s.b) && s.b.lastFailure == Some(now)
  {
    var t1, s1 := TenthFailure(cfg, threads, now);
    AllFailuresTrip(cfg, MIN_SAMPLES);
    ToWillOpen(cfg, s1.b, MIN_SAMPLES, now);
    Advances(cfg, s1, 0, now, false, 1);
    var s2 := Sys(s1.b, s1.threads[0 := WillOpen]);
    ToOpen(cfg, s2.b, now);
    Advances(cfg, s2, 0, now, false, 1);
    s := Sys(Opened(s2.b), AllIdle(threads));
    assert s2.threads[0 := Idle] == s.threads;
    LeadsOn(cfg, Start(threads), t1, s1, Turns(0, now, false, 1), s2);
    ts := t1 + Turns(0, now, false, 1);
    LeadsOn(cfg, Start(threads), ts, s2, Turns(0, now, false, 1), s);
    ts := ts + Turns(0, now, false, 1);
  }

  lemma TwoOpen(cfg: Config, threads: nat, now: int) returns (ts: seq<Turn>, s: Sys)
    requires threads >= 2
    ensures Leads(cfg, Start(threads), ts, s) && s.threads == AllIdle(threads)
    ensures JustOpened(s.b) && s.b.lastFailure == Some(now)
  {
    var t1, s1 := Primes(cfg, threads, now);
    ToIdle(cfg, s1.b, now);
    Advances(cfg, s1, 1, now, true, 2);
    var s2 := Sys(s1.b.(successes := s1.b.successes + 1), s1.threads[1 := Idle]);
    ToOpen(cfg, s2.b, now);
    Advances(cfg, s2, 0, now, false, 1);
    s := Sys(Opened(s2.b), AllIdle(threads));
    assert s2.threads[0 := Idle] == s.threads;
    LeadsOn(cfg, Start(threads), t1, s1, Turns(1, now, true, 2), s2);
    ts := t1 + Turns(1, now, true, 2);
    LeadsOn(cfg, Start(threads), ts, s2, Turns(0, now, false, 1), s);
    ts := ts + Turns(0, now, false, 1);
  }

  lemma {:induction false} NoThreads(cfg: Config, s: Sys, ts: seq<Turn>)
    requires s.threads == []
    ensures Run(Repaired, cfg, s, ts) == s
    decreases ts
  {
    if ts != [] {
      NoThreads(cfg, s, ts[1..]);
    }
  }

  /** Closed, with no half-open admission made or under way. */
  ghost predicate NeverHalfOpen(s: Sys) {
    && s.b.state == Closed && s.b.halfOpenRequests == 0
    && forall i | 0 <= i < |s.threads| :: s.threads[i] != SawHalfOpen && s.threads[i] != WillAdd
  }

  lemma NeverOpensAlone(cfg: Config, s: Sys, t: Turn, past: seq<bool>)
    requires cfg.failureThreshold > 100.0 && Fresh(cfg, s) && Counted(s.b, past)
    ensures !Opens(cfg, s, t)
  {
    TooFewFailures(cfg, past);
    if Opens(cfg, s, t) {
      FreshOpening(cfg, s, t, past);
    }
  }

  lemma StepStaysClosed(cfg: Config, s: Sys, t: Turn)
    requires NeverHalfOpen(s) && !Opens(cfg, s, t)
    ensures NeverHalfOpen(Next(Repaired, cfg, s, t))
  {
    OnlyTheEdges(cfg, s, t);
  }

  lemma {:induction false} AloneStaysClosed(cfg: Config, s: Sys, ts: seq<Turn>, past: seq<bool>)
    requires cfg.failureThreshold > 100.0 && Fresh(cfg, s) && Counted(s.b, past) && NeverHalfOpen(s)
    ensures NeverHalfOpen(Run(Repaired, cfg, s, ts))
    decreases ts
  {
    if ts != [] {
      NeverOpensAlone(cfg, s, ts[0], past);
      StepStaysClosed(cfg, s, ts[0]);
      StepIsFresh(cfg, s, ts[0]);
      StepCounts(cfg, s, ts[0], past);
      AloneStaysClosed(cfg, Next(Repaired, cfg, s, ts[0]), ts[1..], SeenStep(cfg, s, ts[0], past));
    }
  }

  lemma NeverTripped(cfg: Config, threads: nat, ts: seq<Turn>)
    requires !CanTrip(cfg, threads)
    ensures NeverHalfOpen(Run(Repaired, cfg, Start(threads), ts))
  {
    if threads == 0 {
      NoThreads(cfg, Start(threads), ts);
    } else {
      AloneStaysClosed(cfg, Start(threads), ts, []);
    }
  }

  ghost predicate EndsOpen(cfg: Config, threads: nat, ts: seq<Turn>) {
    Run(Repaired, cfg, Start(threads), ts).b.state == Open
  }

  /** Some schedule opens the breaker if and only if the threshold is at most 100 percent or there are two threads. */
  lemma SomeScheduleOpens(cfg: Config, threads: nat)
    ensures (exists ts :: EndsOpen(cfg, threads, ts)) <==> CanTrip(cfg, threads)
  {
    if CanTrip(cfg, threads) {
      var ts, s := OpensQuietly(cfg, threads, 0);
      assert EndsOpen(cfg, threads, ts);
    } else {
      forall ts
        ensures !EndsOpen(cfg, threads, ts)
      {
        NeverTripped(cfg, threads, ts);
      }
    }
  }

  // ---------------------------------------------------------------- getting stuck

  ghost predicate Outside(s: Sys) {
    forall i | 0 <= i < |s.threads| :: s.threads[i] == Idle || s.threads[i] == SawHalfOpen
  }

  /** Half-open with every thread idle, and on no schedule does any thread get into a call again. */
  ghost predicate Sticks(cfg: Config, threads: nat, ts: seq<Turn>) {
    var s := Run(Repaired, cfg, Start(threads), ts);
    s.b.state == HalfOpen && s.threads == AllIdle(threads) && forall us :: Outside(Run(Repaired, cfg, s, us))
  }

  lemma {:induction false} UsedUpForever(cfg: Config, s: Sys, ts: seq<Turn>)
    requires s.b.state == HalfOpen && s.b.halfOpenRequests >= cfg.halfOpenMaxRequests && Outside(s)
    ensures Outside(Run(Repaired, cfg, s, ts))
    decreases ts
  {
    if ts != [] {
      UsedUpForever(cfg, Next(Repaired, cfg, s, ts[0]), ts[1..]);
    }
  }

  lemma StickingSchedule(cfg: Config, threads: nat) returns (ts: seq<Turn>)
    requires CanTrip(cfg, threads)
    ensures Sticks(cfg, threads, ts)
  {
    var xs, s := OpensQuietly(cfg, threads, 0);
    var n := if cfg.halfOpenMaxRequests >= 0 then cfg.halfOpenMaxRequests + 1 else 1;
    var probes := LateSuccesses(n, Later(cfg, 0));
    var ys := CallsTurns(cfg, s, 0, probes);
    LateSuccessesStick(cfg, s.b, n, Later(cfg, 0));
    var u := Sys(Calls(cfg, s.b, probes), s.threads);
    LeadsOn(cfg, Start(threads), xs, s, ys, u);
    ts := xs + ys;
    forall us
      ensures Outside(Run(Repaired, cfg, u, us))
    {
      UsedUpForever(cfg, u, us);
    }
  }

  /**
   The repaired guard leaves a trap: on some schedule the breaker ends half-open, with nobody inside and
   nobody ever admitted again, if and only if it can trip at all; HalfOpenMaxRequests and the timeout
   do not matter.
   */
  lemma GetsStuck(cfg: Config, threads: nat)
    ensures (exists ts :: Sticks(cfg, threads, ts)) <==> CanTrip(cfg, threads)
  {
    if CanTrip(cfg, threads) {
      var ts := StickingSchedule(cfg, threads);
    } else {
      forall ts
        ensures !Sticks(cfg, threads, ts)
      {
        NeverTripped(cfg, threads, ts);
      }
    }
  }

  // ---------------------------------------------------------------- the half-open overrun

  /** The schedule ends with the half-open counter at the bound of `HalfOpenOverrun`. */
  ghost predicate Overruns(cfg: Config, threads: nat, ts: seq<Turn>) {
    Run(Repaired, cfg, Start(threads), ts).b.halfOpenRequests == cfg.halfOpenMaxRequests - 1 + threads
  }

  lemma OverrunSchedule(cfg: Config, threads: nat) returns (ts: seq<Turn>)
    requires cfg.halfOpenMaxRequests >= 1 && CanTrip(cfg, threads)
    ensures Overruns(cfg, threads, ts)
  {
    var xs, s := OpensQuietly(cfg, threads, 0);
    var probes := LateSuccesses(cfg.halfOpenMaxRequests, Later(cfg, 0));
    var ys := CallsTurns(cfg, s, 0, probes);
    LateSuccessesStick(cfg, s.b, cfg.halfOpenMaxRequests, Later(cfg, 0));
    var u := Sys(Calls(cfg, s.b, probes), s.threads);
    LeadsOn(cfg, Start(threads), xs, s, ys, u);
    var zs := LookTurns(threads) + AddTurns(threads);
    AllLookThenAdd(Repaired, cfg, u);
    LeadsOn(cfg, Start(threads), xs + ys, u, zs, Run(Repaired, cfg, u, zs));
    ts := xs + ys + zs;
  }

  /** The bound is reached on some schedule from a new breaker if and only if the breaker can trip. */
  lemma OverrunIsReached(cfg: Config, threads: nat)
    requires cfg.halfOpenMaxRequests >= 1 && threads >= 1
    ensures (exists ts :: Overruns(cfg, threads, ts)) <==> CanTrip(cfg, threads)
  {
    if CanTrip(cfg, threads) {
      var ts := OverrunSchedule(cfg, threads);
    } else {
      forall ts
        ensures !Overruns(cfg, threads, ts)
      {
        NeverTripped(cfg, threads, ts);
      }
    }
  }

  // ---------------------------------------------------------------- the timeout

  function StoredStep(s: Sys, t: Turn, past: seq<int>): seq<int> {
    if t.thread < |s.threads| && s.threads[t.thread] == Failed then past + [t.now] else past
  }

  /** The times of all failures stored so far. */
  function StoredTimes(cfg: Config, s: Sys, ts: seq<Turn>, past: seq<int>): seq<int>
    decreases ts
  {
    if ts == [] then past
    else StoredTimes(cfg, Next(Repaired, cfg, s, ts[0]), ts[1..], StoredStep(s, ts[0], past))
  }

  predicate Clocked(ts: seq<Turn>, now: int)
    decreases ts
  {
    ts == [] || (ts[0].now >= now && Clocked(ts[1..], ts[0].now))
  }

  function LastTime(ts: seq<Turn>, now: int): int {
    if ts == [] then now else LastTime(ts[1..], ts[0].now)
  }

  predicate Probes(cfg: Config, s: Sys, t: Turn) {
    s.b.state == Open && Next(Repaired, cfg, s, t).b.state == HalfOpen
  }

  /** Whenever the open breaker lets a probe in, every failure stored so far has timed out. */
  ghost predicate TimeoutKept(cfg: Config, threads: nat) {
    forall ts, t: Turn, now ::
      Clocked(ts, now) && t.now >= LastTime(ts, now) && Probes(cfg, Run(Repaired, cfg, Start(threads), ts), t) ==>
        forall f <- StoredTimes(cfg, Start(threads), ts, []) :: t.now - f > cfg.resetTimeout
  }

  ghost predicate Past(stored: seq<int>, now: int) {
    forall f <- stored :: f <= now
  }

  /** What a thread on its own knows of the last failure is still so. */
  ghost predicate Timely(cfg: Config, s: Sys, stored: seq<int>, now: int) {
    && |s.threads| <= 1
    && (s.b.lastFailure.Some? ==> s.b.lastFailure.value <= now)
    && (forall f <- stored :: s.b.lastFailure.Some? && f <= s.b.lastFailure.value)
    && (|s.threads| == 1 && s.threads[0] == SawTimeout ==> TimedOut(cfg, s.b, now))
  }

  lemma {:induction false} RunIsPast(cfg: Config, s: Sys, ts: seq<Turn>, stored: seq<int>, now: int)
    requires Clocked(ts, now) && Past(stored, now)
    ensures Past(StoredTimes(cfg, s, ts, stored), LastTime(ts, now))
    decreases ts
  {
    if ts != [] {
      RunIsPast(cfg, Next(Repaired, cfg, s, ts[0]), ts[1..], StoredStep(s, ts[0], stored), ts[0].now);
    }
  }

  lemma StepIsTimely(cfg: Config, s: Sys, t: Turn, stored: seq<int>, now: int)
    requires Timely(cfg, s, stored, now) && t.now >= now
    ensures Timely(cfg, Next(Repaired, cfg, s, t), StoredStep(s, t, stored), t.now)
  {
  }

  lemma {:induction false} RunIsTimely(cfg: Config, s: Sys, ts: seq<Turn>, stored: seq<int>, now: int)
    requires Clocked(ts, now) && Timely(cfg, s, stored, now)
    ensures Timely(cfg, Run(Repaired, cfg, s, ts), StoredTimes(cfg, s, ts, stored), LastTime(ts, now))
    decreases ts
  {
    if ts != [] {
      StepIsTimely(cfg, s, ts[0], stored, now);
      RunIsTimely(cfg, Next(Repaired, cfg, s, ts[0]), ts[1..], StoredStep(s, ts[0], stored), ts[0].now);
    }
  }

  lemma TimeoutHolds(cfg: Config, threads: nat)
    requires threads <= 1 || cfg.resetTimeout < 0
    ensures TimeoutKept(cfg, threads)
  {
    forall ts, t: Turn, now
      | Clocked(ts, now) && t.now >= LastTime(ts, now) && Probes(cfg, Run(Repaired, cfg, Start(threads), ts), t)
      ensures forall f <- StoredTimes(cfg, Start(threads), ts, []) :: t.now - f > cfg.resetTimeout
    {
      RunIsPast(cfg, Start(threads), ts, [], now);
      if threads <= 1 {
        RunIsTimely(cfg, Start(threads), ts, [], now);
      }
    }
  }

  lemma {:induction false} StoredSnoc(cfg: Config, s: Sys, ts: seq<Turn>, t: Turn, past: seq<int>)
    ensures StoredTimes(cfg, s, ts + [t], past)
         == StoredStep(Run(Repaired, cfg, s, ts), t, StoredTimes(cfg, s, ts, past))
    decreases ts
  {
    if ts == [] {
      assert [t][1..] == [] && [] + [t] == [t];
    } else {
      assert (ts + [t])[0] == ts[0] && (ts + [t])[1..] == ts[1..] + [t];
      StoredSnoc(cfg, Next(Repaired, cfg, s, ts[0]), ts[1..], t, StoredStep(s, ts[0], past));
    }
  }

  lemma {:induction false} TwoTimes(xs: seq<Turn>, ys: seq<Turn>, now: int, later: int, start: int)
    requires AtTime(xs, now) && AtTime(ys, later) && ys != [] && start <= now <= later
    ensures Clocked(xs + ys, start) && LastTime(xs + ys, start) == later
    decreases |xs| + |ys|
  {
    if xs != [] {
      assert (xs + ys)[0] == xs[0] && (xs + ys)[1..] == xs[1..] + ys;
      TwoTimes(xs[1..], ys, now, later, now);
    } else {
      assert xs + ys == ys;
      if |ys| > 1 {
        TwoTimes([], ys[1..], later, later, later);
        assert [] + ys[1..] == ys[1..];
      } else {
        assert ys[1..] == [];
      }
    }
  }

  /** The first thread has seen the timeout pass, the second is about to store a failure. */
  lemma AboutToStore(cfg: Config, threads: nat) returns (xs: seq<Turn>, ys: seq<Turn>, s: Sys)
    requires threads >= 2
    ensures Leads(cfg, Start(threads), xs + ys, s) && AtTime(xs, 0) && AtTime(ys, Later(cfg, 0))
    ensures |s.threads| == threads && s.threads[0] == SawTimeout && s.threads[1] == Failed && s.b.state == Open
  {
    var later := Later(cfg, 0);
    var t1, s1 := Primes(cfg, threads, 0);
    ToFailed(cfg, s1.b, 0);
    Advances(cfg, s1, 1, 0, false, 1);
    var s2 := Sys(s1.b.(failures := s1.b.failures + 1), s1.threads[1 := Failed]);
    ToOpen(cfg, s2.b, 0);
    Advances(cfg, s2, 0, 0, false, 1);
    var s3 := Sys(Opened(s2.b), s2.threads[0 := Idle]);
    ToTimeout(cfg, s3.b, later);
    Advances(cfg, s3, 0, later, false, 2);
    s := Sys(s3.b, s3.threads[0 := SawTimeout]);
    LeadsOn(cfg, Start(threads), t1, s1, Turns(1, 0, false, 1), s2);
    LeadsOn(cfg, Start(threads), t1 + Turns(1, 0, false, 1), s2, Turns(0, 0, false, 1), s3);
    xs, ys := t1 + Turns(1, 0, false, 1) + Turns(0, 0, false, 1), Turns(0, later, false, 2);
    LeadsOn(cfg, Start(threads), xs, s3, ys, s);
  }

  /** A failure stored between the look at the clock and the transition is not waited for. */
  lemma TimeoutMissed(cfg: Config, threads: nat)
    requires threads >= 2 && cfg.resetTimeout >= 0
    ensures !TimeoutKept(cfg, threads)
  {
    var later := Later(cfg, 0);
    var xs, ys, s := AboutToStore(cfg, threads);
    var store, probe := Turn(1, later, false), Turn(0, later, false);
    var ts := xs + ys + [store];
    var s1 := Next(Repaired, cfg, s, store);
    RunOne(Repaired, cfg, s, store);
    LeadsOn(cfg, Start(threads), xs + ys, s, [store], s1);
    StoredSnoc(cfg, Start(threads), xs + ys, store, []);
    var stored := StoredTimes(cfg, Start(threads), ts, []);
    assert stored[|stored| - 1] == later;
    assert ts == xs + (ys + [store]);
    TwoTimes(xs, ys + [store], 0, later, 0);
    assert Probes(cfg, Run(Repaired, cfg, Start(threads), ts), probe);
    assert later in stored && !(probe.now - later > cfg.resetTimeout);
  }

  /** The timeout is kept on every schedule if and only if there is at most one thread, or no timeout to keep. */
  lemma TimeoutIsKept(cfg: Config, threads: nat)
    ensures TimeoutKept(cfg, threads) <==> threads <= 1 || cfg.resetTimeout < 0
  {
    if threads <= 1 || cfg.resetTimeout < 0 {
      TimeoutHolds(cfg, threads);
    } else {
      TimeoutMissed(cfg, threads);
    }
  }
}
