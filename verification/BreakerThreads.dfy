/**
 The breaker with every atomic load, store and add a step of its own, except that `transitionTo` is one
 step: the mutex keeps transitions apart, but not the loads of others from seeing its stores one by one.
 Any number of threads, any schedule.
 */
module BreakerThreads {
  import opened Common
  import opened CircuitBreaker

  /** Where a thread is inside `Call`, with what it has loaded so far. */
  datatype PC =
    | Idle
    | SawOpen                                  // allowRequest: about to load lastFailureTime
    | SawTimeout                               // about to call transitionTo(HalfOpen)
    | SawHalfOpen                              // about to load halfOpenRequests
    | WillAdd                                  // loaded a value below the maximum, about to add one
    | Admitted                                 // about to add to totalRequests
    | Running                                  // inside fn
    | Failed                                   // failures added, about to store lastFailureTime
    | Stored                                   // about to load failures
    | Loaded(failures: int)                    // about to load successes
    | Sampled(total: int)                      // at least ten; about to load failures again
    | WillOpen                                 // about to call transitionTo(Open)
    | Succeeded                                // successes added, about to load the state
    | SawHalfOpenAfter                         // about to load halfOpenRequests
    | Compared(halfOpen: int)                  // about to load successes
    | WillClose                                // about to call transitionTo(Closed)

  /** One atomic step of a thread; `now` and `ok` are the clock and the outcome of `fn` where they are read. */
  function Step(v: Variant, cfg: Config, b: Breaker, pc: PC, now: int, ok: bool): (Breaker, PC) {
    match pc
    case Idle => (b, match b.state case Closed => Admitted case Open => SawOpen case HalfOpen => SawHalfOpen)
    case SawOpen => (b, if TimedOut(cfg, b, now) then SawTimeout else Idle)
    case SawTimeout => (Transition(v, b, HalfOpen), if MayMove(v, b.state, HalfOpen) then Admitted else Idle)
    case SawHalfOpen => (b, if b.halfOpenRequests >= cfg.halfOpenMaxRequests then Idle else WillAdd)
    case WillAdd => (b.(halfOpenRequests := b.halfOpenRequests + 1), Admitted)
    case Admitted => (Count(b), Running)
    case Running =>
      if ok then (b.(successes := b.successes + 1), Succeeded) else (b.(failures := b.failures + 1), Failed)
    case Failed => (b.(lastFailure := Some(now)), Stored)
    case Stored => (b, Loaded(b.failures))
    case Loaded(f) => (b, if f + b.successes < MIN_SAMPLES then Idle else Sampled(f + b.successes))
    case Sampled(total) => (b, if Tripping(cfg, b.failures, total) then WillOpen else Idle)
    case WillOpen => (Transition(v, b, Open), Idle)
    case Succeeded => (b, if b.state == HalfOpen then SawHalfOpenAfter else Idle)
    case SawHalfOpenAfter => (b, Compared(b.halfOpenRequests))
    case Compared(h) => (b, if b.successes >= h then WillClose else Idle)
    case WillClose => (Transition(v, b, Closed), Idle)
  }

  datatype Sys = Sys(b: Breaker, threads: seq<PC>)

  datatype Turn = Turn(thread: nat, now: int, ok: bool)

  function Next(v: Variant, cfg: Config, s: Sys, t: Turn): Sys {
    if t.thread < |s.threads| then
      var (b, pc) := Step(v, cfg, s.b, s.threads[t.thread], t.now, t.ok);
      Sys(b, s.threads[t.thread := pc])
    else s
  }

  function Run(v: Variant, cfg: Config, s: Sys, ts: seq<Turn>): Sys
    decreases ts
  {
    if ts == [] then s else Run(v, cfg, Next(v, cfg, s, ts[0]), ts[1..])
  }

  function Start(threads: nat): Sys {
    Sys(NEW_BREAKER, seq(threads, _ => Idle))
  }

  function At(threads: seq<PC>, pc: PC): nat {
    if threads == [] then 0 else (if threads[0] == pc then 1 else 0) + At(threads[1..], pc)
  }

  lemma {:induction false} AtUpdate(threads: seq<PC>, i: nat, to: PC, pc: PC)
    requires i < |threads|
    ensures At(threads[i := to], pc)
         == At(threads, pc) - (if threads[i] == pc then 1 else 0) + (if to == pc then 1 else 0)
    ensures At(threads, pc) <= |threads|
  {
    if i > 0 {
      AtUpdate(threads[1..], i - 1, to, pc);
      assert threads[i := to][1..] == threads[1..][i - 1 := to];
    } else {
      AtBound(threads[1..], pc);
    }
    AtBound(threads, pc);
  }

  lemma {:induction false} AtBound(threads: seq<PC>, pc: PC)
    ensures At(threads, pc) <= |threads|
  {
    if threads != [] {
      AtBound(threads[1..], pc);
    }
  }

  lemma {:induction false} AtIdle(n: nat, pc: PC)
    requires pc != Idle
    ensures At(seq(n, _ => Idle), pc) == 0
  {
    if n > 0 {
      AtIdle(n - 1, pc);
      assert seq(n, _ => Idle)[1..] == seq(n - 1, _ => Idle);
    }
  }

  // ---------------------------------------------------------------- half-open admissions

  /** The counter and the adds that are still to come. */
  ghost predicate AddsBounded(cfg: Config, s: Sys) {
    s.b.halfOpenRequests + At(s.threads, WillAdd) <= cfg.halfOpenMaxRequests - 1 + |s.threads|
  }

  lemma StepAddsBounded(v: Variant, cfg: Config, s: Sys, t: Turn)
    requires cfg.halfOpenMaxRequests >= 1 && AddsBounded(cfg, s)
    ensures AddsBounded(cfg, Next(v, cfg, s, t)) && |Next(v, cfg, s, t).threads| == |s.threads|
  {
    if t.thread < |s.threads| {
      var (b, pc) := Step(v, cfg, s.b, s.threads[t.thread], t.now, t.ok);
      AtUpdate(s.threads, t.thread, pc, WillAdd);
      AtBound(s.threads[t.thread := pc], WillAdd);
    }
  }

  lemma {:induction false} RunAddsBounded(v: Variant, cfg: Config, s: Sys, ts: seq<Turn>)
    requires cfg.halfOpenMaxRequests >= 1 && AddsBounded(cfg, s)
    ensures AddsBounded(cfg, Run(v, cfg, s, ts)) && |Run(v, cfg, s, ts).threads| == |s.threads|
    decreases ts
  {
    if ts != [] {
      StepAddsBounded(v, cfg, s, ts[0]);
      RunAddsBounded(v, cfg, Next(v, cfg, s, ts[0]), ts[1..]);
    }
  }

  /**
   The check before the add is not atomic, so `threads` concurrent callers can overrun the half-open
   maximum, but never by as many as they are.
   */
  lemma HalfOpenOverrun(v: Variant, cfg: Config, threads: nat, ts: seq<Turn>)
    requires cfg.halfOpenMaxRequests >= 1 && threads >= 1
    ensures Run(v, cfg, Start(threads), ts).b.halfOpenRequests <= cfg.halfOpenMaxRequests - 1 + threads
  {
    AtIdle(threads, WillAdd);
    RunAddsBounded(v, cfg, Start(threads), ts);
  }

  /** Threads 0..n-1 each look at the state and at the counter. */
  function LookTurns(n: nat): seq<Turn> {
    if n == 0 then [] else LookTurns(n - 1) + [Turn(n - 1, 0, true), Turn(n - 1, 0, true)]
  }

  function AddTurns(n: nat): seq<Turn> {
    if n == 0 then [] else AddTurns(n - 1) + [Turn(n - 1, 0, true)]
  }

  lemma {:induction false} RunSplits(v: Variant, cfg: Config, s: Sys, xs: seq<Turn>, ys: seq<Turn>)
    ensures Run(v, cfg, s, xs + ys) == Run(v, cfg, Run(v, cfg, s, xs), ys)
    decreases xs
  {
    if xs == [] {
      assert xs + ys == ys;
    } else {
      assert (xs + ys)[1..] == xs[1..] + ys;
      RunSplits(v, cfg, Next(v, cfg, s, xs[0]), xs[1..], ys);
    }
  }

  lemma RunOne(v: Variant, cfg: Config, s: Sys, t: Turn)
    ensures Run(v, cfg, s, [t]) == Next(v, cfg, s, t)
  {
    assert [t][1..] == [];
    assert Run(v, cfg, Next(v, cfg, s, t), []) == Next(v, cfg, s, t);
  }

  lemma {:induction false} Looking(v: Variant, cfg: Config, s: Sys, n: nat)
    requires s.b.state == HalfOpen && s.b.halfOpenRequests < cfg.halfOpenMaxRequests
    requires n <= |s.threads| && forall i | 0 <= i < |s.threads| :: s.threads[i] == Idle
    ensures Run(v, cfg, s, LookTurns(n)) == Sys(s.b, seq(n, _ => WillAdd) + s.threads[n..])
  {
    if n > 0 {
      Looking(v, cfg, s, n - 1);
      var t := Turn(n - 1, 0, true);
      var s1 := Run(v, cfg, s, LookTurns(n - 1));
      RunSplits(v, cfg, s, LookTurns(n - 1), [t, t]);
      RunOne(v, cfg, s1, t);
      RunOne(v, cfg, Next(v, cfg, s1, t), t);
      assert [t] + [t] == [t, t];
      RunSplits(v, cfg, s1, [t], [t]);
      assert s1.threads[n - 1] == Idle;
      assert seq(n, _ => WillAdd) + s.threads[n..] == s1.threads[n - 1 := WillAdd];
      assert s1.threads[n - 1 := SawHalfOpen][n - 1 := WillAdd] == s1.threads[n - 1 := WillAdd];
    }
  }

  lemma {:induction false} Adding(v: Variant, cfg: Config, s: Sys, n: nat)
    requires n <= |s.threads| && forall i | 0 <= i < n :: s.threads[i] == WillAdd
    ensures
      var t := Run(v, cfg, s, AddTurns(n));
      && t.b.halfOpenRequests == s.b.halfOpenRequests + n
      && |t.threads| == |s.threads| && t.threads[n..] == s.threads[n..]
  {
    if n > 0 {
      Adding(v, cfg, s, n - 1);
      var t := Turn(n - 1, 0, true);
      var s1 := Run(v, cfg, s, AddTurns(n - 1));
      RunSplits(v, cfg, s, AddTurns(n - 1), [t]);
      RunOne(v, cfg, s1, t);
      assert s1.threads[n - 1] == s1.threads[n - 1..][0] == s.threads[n - 1..][0];
      forall i | n <= i < |s.threads|
        ensures s1.threads[i] == s.threads[i]
      {
        assert s1.threads[n - 1..][i - (n - 1)] == s.threads[n - 1..][i - (n - 1)];
      }
    } else {
      assert AddTurns(0) == [];
    }
  }

  /** With one admission left, threads that all look before any adds end exactly at the bound. */
  lemma AllLookThenAdd(v: Variant, cfg: Config, s: Sys)
    requires s.b.state == HalfOpen && s.b.halfOpenRequests == cfg.halfOpenMaxRequests - 1
    requires forall i | 0 <= i < |s.threads| :: s.threads[i] == Idle
    ensures Run(v, cfg, s, LookTurns(|s.threads|) + AddTurns(|s.threads|)).b.halfOpenRequests
         == cfg.halfOpenMaxRequests - 1 + |s.threads|
  {
    var n := |s.threads|;
    Looking(v, cfg, s, n);
    RunSplits(v, cfg, s, LookTurns(n), AddTurns(n));
    Adding(v, cfg, Run(v, cfg, s, LookTurns(n)), n);
  }

  // ---------------------------------------------------------------- the breaker as written

  predicate OnClosedPath(pc: PC) {
    !(pc in {SawOpen, SawTimeout, SawHalfOpen, WillAdd, SawHalfOpenAfter, WillClose} || pc.Compared?)
  }

  /** Closed, with nobody on the way to a rejection, and every counted call accounted for. */
  ghost predicate AlwaysClosed(s: Sys) {
    && s.b.state == Closed
    && (forall i | 0 <= i < |s.threads| :: OnClosedPath(s.threads[i]))
    && s.b.totalRequests == s.b.failures + s.b.successes + At(s.threads, Running)
  }

  lemma StepStaysClosed(cfg: Config, s: Sys, t: Turn)
    requires AlwaysClosed(s)
    ensures AlwaysClosed(Next(AsWritten, cfg, s, t))
    ensures s.b.failures <= Next(AsWritten, cfg, s, t).b.failures
    ensures s.b.successes <= Next(AsWritten, cfg, s, t).b.successes
    ensures t.thread < |s.threads| && s.threads[t.thread] == Idle ==> Next(AsWritten, cfg, s, t).threads[t.thread] == Admitted
  {
    if t.thread < |s.threads| {
      var (b, pc) := Step(AsWritten, cfg, s.b, s.threads[t.thread], t.now, t.ok);
      AtUpdate(s.threads, t.thread, pc, Running);
    }
  }

  /**
   As written, under every schedule the breaker stays closed, every call that asks is admitted at
   once, the counters are never reset, and every counted call is a failure, a success or still running.
   */
  lemma {:induction false} NeverTrips(cfg: Config, s: Sys, ts: seq<Turn>)
    requires AlwaysClosed(s)
    ensures AlwaysClosed(Run(AsWritten, cfg, s, ts))
    ensures s.b.failures <= Run(AsWritten, cfg, s, ts).b.failures
    ensures s.b.successes <= Run(AsWritten, cfg, s, ts).b.successes
    decreases ts
  {
    if ts != [] {
      StepStaysClosed(cfg, s, ts[0]);
      NeverTrips(cfg, Next(AsWritten, cfg, s, ts[0]), ts[1..]);
    }
  }

  lemma NeverTripsFromStart(cfg: Config, threads: nat, ts: seq<Turn>)
    ensures AlwaysClosed(Run(AsWritten, cfg, Start(threads), ts))
  {
    AtIdle(threads, Running);
    NeverTrips(cfg, Start(threads), ts);
  }
}
