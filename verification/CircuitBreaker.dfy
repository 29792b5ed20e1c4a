/**
 The circuit breaker as written, and with the guard of `transitionTo` repaired.

 Each method is one step; interleaving inside methods is the subject of BreakerThreads.
 */
module CircuitBreaker {
  import opened Common

  datatype State = Closed | Open | HalfOpen

  /** Threshold in percent; the timeout in the clock's unit. */
  datatype Config = Config(failureThreshold: real, resetTimeout: int, halfOpenMaxRequests: int)

  /**
   `AsWritten` compares the current state with the new one; `Repaired` with the states the
   callers come from.
   */
  datatype Variant = AsWritten | Repaired

  datatype Breaker = Breaker(
    state: State,
    failures: int,
    successes: int,
    totalRequests: int,
    lastFailure: Option<int>,
    halfOpenRequests: int)

  const NEW_BREAKER := Breaker(Closed, 0, 0, 0, None, 0)

  predicate MayMove(v: Variant, from: State, to: State) {
    match v
    case AsWritten => from == to && (to == HalfOpen ==> from == Open)
    case Repaired =>
      match to
      case Open => from != Open
      case HalfOpen => from == Open
      case Closed => from == HalfOpen
  }

  function Transition(v: Variant, b: Breaker, to: State): Breaker {
    if !MayMove(v, b.state, to) then b
    else
      match to
      case Open => b.(state := Open, failures := 0, successes := 0)
      case HalfOpen => b.(state := HalfOpen, halfOpenRequests := 0)
      case Closed => b.(state := Closed)
  }

  /** As written no transition changes the state; all that one can do is to clear the counters of an open breaker. */
  lemma AsWrittenNothingMoves(b: Breaker, to: State)
    ensures Transition(AsWritten, b, to).state == b.state
    ensures Transition(AsWritten, b, to) != b <==> b.state == Open == to && (b.failures != 0 || b.successes != 0)
  {
  }

  /** The zero time lies further back than any timeout. */
  predicate TimedOut(cfg: Config, b: Breaker, now: int) {
    b.lastFailure.None? || now - b.lastFailure.value > cfg.resetTimeout
  }

  function Allow(v: Variant, cfg: Config, b: Breaker, now: int): (Breaker, bool) {
    match b.state
    case Closed => (b, true)
    case Open =>
      if TimedOut(cfg, b, now) && MayMove(v, Open, HalfOpen) then (Transition(v, b, HalfOpen), true) else (b, false)
    case HalfOpen =>
      if b.halfOpenRequests >= cfg.halfOpenMaxRequests then (b, false)
      else (b.(halfOpenRequests := b.halfOpenRequests + 1), true)
  }

  const MIN_SAMPLES := 10

  predicate Tripping(cfg: Config, failures: int, total: int) {
    total >= MIN_SAMPLES && failures as real / total as real * 100.0 >= cfg.failureThreshold
  }

  function Failure(v: Variant, cfg: Config, b: Breaker, now: int): Breaker {
    var b1 := b.(failures := b.failures + 1, lastFailure := Some(now));
    if Tripping(cfg, b1.failures, b1.failures + b1.successes) then Transition(v, b1, Open) else b1
  }

  function Success(v: Variant, b: Breaker): Breaker {
    var b1 := b.(successes := b.successes + 1);
    if b1.state == HalfOpen && b1.successes >= b1.halfOpenRequests then Transition(v, b1, Closed) else b1
  }

  function Count(b: Breaker): Breaker {
    b.(totalRequests := b.totalRequests + 1)
  }

  function Outcome(v: Variant, cfg: Config, b: Breaker, ok: bool, now: int): Breaker {
    if ok then Success(v, b) else Failure(v, cfg, b, now)
  }

  class CircuitBreaker {
    const variant: Variant
    const config: Config
    var state: State
    var failures: int
    var successes: int
    var totalRequests: int
    var lastFailureTime: Option<int>
    var halfOpenRequests: int

    constructor (variant: Variant, config: Config)
      ensures this.variant == variant && this.config == config && Snapshot() == NEW_BREAKER
    {
      this.variant := variant;
      this.config := config;
      state, failures, successes, totalRequests, lastFailureTime, halfOpenRequests := Closed, 0, 0, 0, None, 0;
    }

    function Snapshot(): Breaker
      reads this
    {
      Breaker(state, failures, successes, totalRequests, lastFailureTime, halfOpenRequests)
    }

    method TransitionTo(newState: State) returns (moved: bool)
      modifies this
      ensures Snapshot() == Transition(variant, old(Snapshot()), newState)
      ensures moved == MayMove(variant, old(state), newState)
    {
      if !MayMove(variant, state, newState) {
        return false;
      }
      state := newState;
      if newState == Open {
        failures, successes := 0, 0;
      } else if newState == HalfOpen {
        halfOpenRequests := 0;
      }
      moved := true;
    }

    method AllowRequest(now: int) returns (allowed: bool)
      modifies this
      ensures (Snapshot(), allowed) == Allow(variant, config, old(Snapshot()), now)
    {
      match state
      case Closed => allowed := true;
      case Open =>
        if lastFailureTime.None? || now - lastFailureTime.value > config.resetTimeout {
          allowed := TransitionTo(HalfOpen);
        } else {
          allowed := false;
        }
      case HalfOpen =>
        if halfOpenRequests >= config.halfOpenMaxRequests {
          return false;
        }
        halfOpenRequests := halfOpenRequests + 1;
        allowed := true;
    }

    method RecordFailure(now: int)
      modifies this
      ensures Snapshot() == Failure(variant, config, old(Snapshot()), now)
    {
      failures := failures + 1;
      lastFailureTime := Some(now);
      var total := failures + successes;
      if total < 10 {
        return;
      }
      var failRate := failures as real / total as real * 100.0;
      if failRate >= config.failureThreshold {
        var _ := TransitionTo(Open);
      }
    }

    method RecordSuccess()
      modifies this
      ensures Snapshot() == Success(variant, old(Snapshot()))
    {
      successes := successes + 1;
      if state == HalfOpen && successes >= halfOpenRequests {
        var _ := TransitionTo(Closed);
      }
    }

    /** The first half of `Call`: admission, and the count of an admitted call. */
    method BeginCall(now: int) returns (admitted: bool)
      modifies this
      ensures
        var (b, ok) := Allow(variant, config, old(Snapshot()), now);
        admitted == ok && Snapshot() == if ok then Count(b) else b
    {
      admitted := AllowRequest(now);
      if admitted {
        totalRequests := totalRequests + 1;
      }
    }

    /** The second half: the outcome of an admitted call. */
    method EndCall(failed: bool, now: int)
      modifies this
      ensures Snapshot() == Outcome(variant, config, old(Snapshot()), !failed, now)
    {
      if failed {
        RecordFailure(now);
      } else {
        RecordSuccess();
      }
    }

    /**
     A call that runs alone: `done` says whether the context had ended before and after `fn`,
     `fnFails` what `fn` returned. An admitted call is one outcome, a rejected one none.
     */
    method Call(doneBefore: bool, fnFails: bool, doneAfter: bool, now: int,
        later: int) returns (admitted: bool, failed: bool)
      modifies this
      ensures
        var (b, ok) := Allow(variant, config, old(Snapshot()), now);
        && admitted == ok
        && failed == (!ok || doneBefore || doneAfter || fnFails)
        && Snapshot() == if ok then Outcome(variant, config, Count(b), !failed, later) else b
    {
      admitted := BeginCall(now);
      if !admitted {
        return false, true;
      }
      failed := doneBefore || doneAfter || fnFails;
      EndCall(failed, later);
    }
  }
}
