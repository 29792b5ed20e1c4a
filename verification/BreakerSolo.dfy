/** A thread left alone performs its calls as the coarse model does, whatever the others are in the middle of. */
module BreakerSolo {
  import opened Common
  import opened CircuitBreaker
  import opened BreakerThreads
  import opened BreakerEpisodes

  /** Every step inside a call moves down, or leaves the call. */
  function Rank(pc: PC): nat {
    match pc
    case Idle => 0
    case SawOpen => 15
    case SawTimeout => 14
    case SawHalfOpen => 13
    case WillAdd => 12
    case Admitted => 11
    case Running => 10
    case Failed => 9
    case Stored => 8
    case Loaded(_) => 7
    case Sampled(_) => 6
    case WillOpen => 5
    case Succeeded => 4
    case SawHalfOpenAfter => 3
    case Compared(_) => 2
    case WillClose => 1
  }

  /** What a thread that runs alone from `pc` to the end of its call makes of the breaker ... */
  function Finish(cfg: Config, b: Breaker, pc: PC, p: Probe): Breaker
    decreases Rank(pc)
  {
    if pc.Idle? then b
    else
      var (b1, pc1) := Step(Repaired, cfg, b, pc, p.now, p.ok);
      Finish(cfg, b1, pc1, p)
  }

  /** ... and the turns this takes. */
  function TurnsToFinish(cfg: Config, b: Breaker, pc: PC, i: nat, p: Probe): seq<Turn>
    decreases Rank(pc)
  {
    if pc.Idle? then []
    else
      var (b1, pc1) := Step(Repaired, cfg, b, pc, p.now, p.ok);
      [Turn(i, p.now, p.ok)] + TurnsToFinish(cfg, b1, pc1, i, p)
  }

  ghost predicate AtTime(ts: seq<Turn>, now: int) {
    forall t <- ts :: t.now == now
  }

  lemma {:induction false} FinishAtTime(cfg: Config, b: Breaker, pc: PC, i: nat, p: Probe)
    ensures AtTime(TurnsToFinish(cfg, b, pc, i, p), p.now)
    decreases Rank(pc)
  {
    if !pc.Idle? {
      var (b1, pc1) := Step(Repaired, cfg, b, pc, p.now, p.ok);
      FinishAtTime(cfg, b1, pc1, i, p);
    }
  }

  lemma {:induction false} TurnsFinish(cfg: Config, s: Sys, i: nat, p: Probe)
    requires i < |s.threads|
    ensures Run(Repaired, cfg, s, TurnsToFinish(cfg, s.b, s.threads[i], i, p))
         == Sys(Finish(cfg, s.b, s.threads[i], p), s.threads[i := Idle])
    decreases Rank(s.threads[i])
  {
    if s.threads[i].Idle? {
      assert s.threads[i := Idle] == s.threads;
    } else {
      var (b1, pc1) := Step(Repaired, cfg, s.b, s.threads[i], p.now, p.ok);
      var s1 := Sys(b1, s.threads[i := pc1]);
      var ts := TurnsToFinish(cfg, s.b, s.threads[i], i, p);
      assert ts[1..] == TurnsToFinish(cfg, b1, pc1, i, p);
      TurnsFinish(cfg, s1, i, p);
      assert s1.threads[i := Idle] == s.threads[i := Idle];
    }
  }

  lemma FailureFinishes(cfg: Config, b: Breaker, p: Probe)
    requires !p.ok
    ensures Finish(cfg, b, Running, p) == Failure(Repaired, cfg, b, p.now)
  {
    var b1 := b.(failures := b.failures + 1);
    var b2 := b1.(lastFailure := Some(p.now));
    assert Finish(cfg, b, Running, p) == Finish(cfg, b1, Failed, p) == Finish(cfg, b2, Stored, p);
    assert Finish(cfg, b2, Stored, p) == Finish(cfg, b2, Loaded(b2.failures), p);
    var total := b2.failures + b2.successes;
    if total >= MIN_SAMPLES {
      assert Finish(cfg, b2, Loaded(b2.failures), p) == Finish(cfg, b2, Sampled(total), p);
      assert Finish(cfg, b2, Sampled(total), p)
          == if Tripping(cfg, b2.failures, total) then Finish(cfg, b2, WillOpen, p) else b2;
      assert Finish(cfg, b2, WillOpen, p) == Transition(Repaired, b2, Open);
    }
  }

  lemma SuccessFinishes(cfg: Config, b: Breaker, p: Probe)
    requires p.ok
    ensures Finish(cfg, b, Running, p) == Success(Repaired, b)
  {
    var b1 := b.(successes := b.successes + 1);
    assert Finish(cfg, b, Running, p) == Finish(cfg, b1, Succeeded, p);
    if b1.state == HalfOpen {
      assert Finish(cfg, b1, Succeeded, p) == Finish(cfg, b1, SawHalfOpenAfter, p);
      assert Finish(cfg, b1, SawHalfOpenAfter, p) == Finish(cfg, b1, Compared(b1.halfOpenRequests), p);
      assert Finish(cfg, b1, WillClose, p) == Transition(Repaired, b1, Closed);
    }
  }

  lemma AdmittedFinishes(cfg: Config, b: Breaker, p: Probe)
    ensures Finish(cfg, b, Admitted, p) == Outcome(Repaired, cfg, Count(b), p.ok, p.now)
  {
    assert Finish(cfg, b, Admitted, p) == Finish(cfg, Count(b), Running, p);
    if p.ok {
      SuccessFinishes(cfg, Count(b), p);
    } else {
      FailureFinishes(cfg, Count(b), p);
    }
  }

  /** A thread left alone performs the call as one step. */
  lemma AloneIsAtomic(cfg: Config, b: Breaker, p: Probe)
    ensures
      var pc := Step(Repaired, cfg, b, Idle, p.now, p.ok).1;
      Finish(cfg, b, pc, p) == CallAlone(cfg, b, p)
  {
    match b.state
    case Closed => AdmittedFinishes(cfg, b, p);
    case Open =>
      if TimedOut(cfg, b, p.now) {
        assert Finish(cfg, b, SawOpen, p) == Finish(cfg, b, SawTimeout, p);
        AdmittedFinishes(cfg, Transition(Repaired, b, HalfOpen), p);
      }
    case HalfOpen =>
      if b.halfOpenRequests < cfg.halfOpenMaxRequests {
        var b1 := b.(halfOpenRequests := b.halfOpenRequests + 1);
        assert Finish(cfg, b, SawHalfOpen, p) == Finish(cfg, b, WillAdd, p) == Finish(cfg, b1, Admitted, p);
        AdmittedFinishes(cfg, b1, p);
      }
  }

  function AllIdle(n: nat): seq<PC> {
    seq(n, _ => Idle)
  }

  /** An idle thread that makes a call on its own, whatever the others are in the middle of. */
  lemma CallTurns(cfg: Config, s: Sys, i: nat, p: Probe) returns (ts: seq<Turn>)
    requires i < |s.threads| && s.threads[i] == Idle
    ensures Run(Repaired, cfg, s, ts) == Sys(CallAlone(cfg, s.b, p), s.threads) && AtTime(ts, p.now)
  {
    var t := Turn(i, p.now, p.ok);
    var s1 := Next(Repaired, cfg, s, t);
    RunOne(Repaired, cfg, s, t);
    TurnsFinish(cfg, s1, i, p);
    AloneIsAtomic(cfg, s.b, p);
    var rest := TurnsToFinish(cfg, s1.b, s1.threads[i], i, p);
    RunSplits(Repaired, cfg, s, [t], rest);
    assert s1.threads[i := Idle] == s.threads;
    FinishAtTime(cfg, s1.b, s1.threads[i], i, p);
    ts := [t] + rest;
  }

  lemma {:induction false} CallsTurns(cfg: Config, s: Sys, i: nat, ps: seq<Probe>) returns (ts: seq<Turn>)
    requires i < |s.threads| && s.threads[i] == Idle
    ensures Run(Repaired, cfg, s, ts) == Sys(Calls(cfg, s.b, ps), s.threads)
    ensures if ps == [] then ts == [] else (forall p <- ps :: p.now == ps[0].now) ==> AtTime(ts, ps[0].now)
    decreases ps
  {
    if ps == [] {
      ts := [];
    } else {
      var xs := CallTurns(cfg, s, i, ps[0]);
      var ys := CallsTurns(cfg, Sys(CallAlone(cfg, s.b, ps[0]), s.threads), i, ps[1..]);
      RunSplits(Repaired, cfg, s, xs, ys);
      ts := xs + ys;
    }
  }
}
