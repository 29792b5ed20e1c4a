/** The retrying upstream client inside the circuit breaker. */
module LLMClient {
  import opened Common
  import opened Text
  import Breaker = CircuitBreaker

  /** What one HTTP request comes to; `decodes` says whether a 200 body parses. */
  datatype Upstream = NetworkError(message: string) | Reply(status: int, decodes: bool)

  datatype Error =
    | Rejected
    | Cancelled
    | SendFailed(message: string)
    | ClientError(status: int)     // the typed UpstreamError
    | ServerError(status: int)
    | ParseFailed

  /** By attempt: the upstream's behaviour, and whether the context ends during the wait before it. */
  datatype Env = Env(upstream: nat -> Upstream, cancelled: nat -> bool)

  /** What the client puts before the message of a network error. */
  const SEND_PREFIX := "failed to send request: "

  predicate IsTransient(message: string) {
    Contains(message, "timeout") || Contains(message, "connection") || Contains(message, "EOF")
  }

  predicate IsRetryableStatus(status: int) {
    500 <= status <= 599
  }

  predicate Retryable(u: Upstream) {
    match u
    case NetworkError(m) => IsTransient(SEND_PREFIX + m)
    case Reply(status, _) => IsRetryableStatus(status)
  }

  /** The verdict on an attempt that is not retried. */
  function Conclude(u: Upstream): Result<(), Error> {
    match u
    case NetworkError(m) => Err(SendFailed(m))
    case Reply(status, decodes) =>
      if status == 200 then (if decodes then Ok(()) else Err(ParseFailed))
      else if 400 <= status < 500 then Err(ClientError(status))
      else Err(ServerError(status))
  }

  // ---------------------------------------------------------------- backoff

  function Pow2(n: nat): nat {
    if n == 0 then 1 else 2 * Pow2(n - 1)
  }

  /** Two's complement of 64 bits. */
  function Wrap64(x: int): int {
    (x + 0x8000_0000_0000_0000) % 0x1_0000_0000_0000_0000 - 0x8000_0000_0000_0000
  }

  const MILLISECOND: int := 1_000_000

  /** The intended wait before an attempt, in nanoseconds: 100 ms, doubled each time. */
  function IdealBackoff(attempt: nat): int
    requires attempt > 0
  {
    100 * Pow2(attempt - 1) * MILLISECOND
  }

  /** `time.Duration(100<<uint(attempt-1)) * time.Millisecond` in int64. */
  function Backoff(attempt: nat): int
    requires attempt > 0
  {
    Wrap64(Wrap64(100 * Pow2(attempt - 1)) * MILLISECOND)
  }

  /** A negative duration does not wait. */
  function Wait(attempt: nat): nat
    requires attempt > 0
  {
    if Backoff(attempt) < 0 then 0 else Backoff(attempt)
  }

  function TotalWait(attempts: nat): nat {
    if attempts <= 1 then 0 else TotalWait(attempts - 1) + Wait(attempts - 1)
  }

  lemma {:induction false} Pow2Grows(m: nat, n: nat)
    requires m <= n
    ensures 0 < Pow2(m) <= Pow2(n)
    decreases n
  {
    if m < n {
      Pow2Grows(m, n - 1);
    } else if m > 0 {
      Pow2Grows(m - 1, m - 1);
    }
  }

  lemma Pow2Of36()
    ensures Pow2(36) == 68_719_476_736
  {
    assert Pow2(12) == 4096;
    assert Pow2(24) == 16_777_216;
  }

  lemma WrapInRange(x: int)
    ensures -0x8000_0000_0000_0000 <= Wrap64(x) <= 0x7FFF_FFFF_FFFF_FFFF
    ensures -0x8000_0000_0000_0000 <= x <= 0x7FFF_FFFF_FFFF_FFFF ==> Wrap64(x) == x
  {
  }

  /** The wait is the intended one exactly up to attempt 37; after that the product no longer fits. */
  lemma BackoffIsExact(attempt: nat)
    requires attempt > 0
    ensures Backoff(attempt) == IdealBackoff(attempt) <==> attempt <= 37
  {
    Pow2Of36();
    var p := Pow2(attempt - 1);
    WrapInRange(Wrap64(100 * p) * MILLISECOND);
    if attempt <= 37 {
      Pow2Grows(attempt - 1, 36);
      WrapInRange(100 * p);
    } else {
      Pow2Grows(37, attempt - 1);
      assert Pow2(37) == 2 * Pow2(36);
      assert IdealBackoff(attempt) > 0x7FFF_FFFF_FFFF_FFFF;
    }
  }

  lemma {:induction false} Pow2Splits(m: nat, n: nat)
    ensures Pow2(m + n) == Pow2(m) * Pow2(n)
  {
    if n > 0 {
      Pow2Splits(m, n - 1);
      assert Pow2(m) * Pow2(n) == 2 * (Pow2(m) * Pow2(n - 1));
    }
  }

  /** The first product that does not fit is negative, and from attempt 57 on it is zero: neither waits. */
  lemma LateWaits(attempt: nat)
    requires attempt == 38 || attempt >= 57
    ensures Wait(attempt) == 0
  {
    if attempt == 38 {
      Pow2Of36();
      assert Pow2(37) == 2 * Pow2(36);
    } else {
      Pow2Of56();
      Pow2Splits(56, attempt - 57);
      WrapsToZero(Pow2(attempt - 57));
    }
  }

  lemma Pow2Of56()
    ensures Pow2(56) == 0x100_0000_0000_0000
  {
    Pow2Of36();
    Pow2Splits(36, 20);
    Pow2Splits(10, 10);
    assert Pow2(10) == 1024;
  }

  const TWO_64 := 0x1_0000_0000_0000_0000

  lemma WrapOfMultiple(k: int)
    ensures Wrap64(k * TWO_64) == 0
  {
  }

  lemma WrapsToZero(p: nat)
    ensures Wrap64(Wrap64(100 * (0x100_0000_0000_0000 * p)) * MILLISECOND) == 0
  {
    var x := 100 * (0x100_0000_0000_0000 * p);
    var turns := (x + 0x8000_0000_0000_0000) / TWO_64;
    assert Wrap64(x) == x - turns * TWO_64;
    WrapOfMultiple(390_625 * p - turns * MILLISECOND);
  }

  /** Up to 38 attempts wait 100 * (2^(n-1) - 1) ms in all. */
  lemma {:induction false} FullBackoff(attempts: nat)
    requires 1 <= attempts <= 38
    ensures TotalWait(attempts) == 100 * (Pow2(attempts - 1) - 1) * MILLISECOND
  {
    if attempts > 1 {
      FullBackoff(attempts - 1);
      BackoffIsExact(attempts - 1);
      Pow2Grows(0, attempts - 2);
    }
  }

  // ---------------------------------------------------------------- the retry loop

  /** What the loop comes to: its verdict, the requests sent, and the time waited. */
  datatype Trace = Trace(result: Result<(), Error>, sent: nat, waited: nat)

  function Loop(env: Env, maxRetries: nat, attempt: nat): (t: Trace)
    requires attempt < maxRetries
    ensures t.sent >= 1
    decreases maxRetries - attempt
  {
    if attempt > 0 && env.cancelled(attempt) then Trace(Err(Cancelled), attempt, TotalWait(attempt))
    else if Retryable(env.upstream(attempt)) && attempt + 1 < maxRetries then Loop(env, maxRetries, attempt + 1)
    else Trace(Conclude(env.upstream(attempt)), attempt + 1, TotalWait(attempt + 1))
  }

  /** Attempts before `k` are all retried, and no wait up to and including the one before `k` is cancelled. */
  ghost predicate Attempted(env: Env, k: nat) {
    && (forall j | 0 <= j < k :: Retryable(env.upstream(j)))
    && (forall j | 0 < j <= k :: !env.cancelled(j))
  }

  /** The verdict of the loop: that of the first attempt that is not retryable, or of the last one. */
  lemma {:induction false} FirstVerdict(env: Env, maxRetries: nat, k: nat, from: nat)
    requires from <= k < maxRetries && Attempted(env, k)
    requires !Retryable(env.upstream(k)) || k + 1 == maxRetries
    ensures Loop(env, maxRetries, from) == Trace(Conclude(env.upstream(k)), k + 1, TotalWait(k + 1))
    decreases k - from
  {
    if from < k {
      FirstVerdict(env, maxRetries, k, from + 1);
    }
  }

  /** A wait cut short by the context ends the loop before the next request. */
  lemma {:induction false} CancelledVerdict(env: Env, maxRetries: nat, k: nat, from: nat)
    requires from < k < maxRetries && Attempted(env, k - 1) && Retryable(env.upstream(k - 1)) && env.cancelled(k)
    ensures Loop(env, maxRetries, from) == Trace(Err(Cancelled), k, TotalWait(k))
    decreases k - from
  {
    if from + 1 < k {
      CancelledVerdict(env, maxRetries, k, from + 1);
    }
  }

  /** These two cases are all; and only retryable outcomes, hence no 4xx, are ever followed by a request. */
  lemma {:induction false} LoopEnds(env: Env, maxRetries: nat, from: nat)
    requires from < maxRetries && (from > 0 ==> Attempted(env, from - 1) && Retryable(env.upstream(from - 1)))
    ensures
      var t := Loop(env, maxRetries, from);
      && from <= t.sent <= maxRetries
      && (forall j | 0 <= j < t.sent - 1 :: Retryable(env.upstream(j)))
      && (t.result == Err(Cancelled) <==> t.sent < maxRetries && env.cancelled(t.sent) && Retryable(env.upstream(t.sent - 1)))
      && (t.result != Err(Cancelled) ==> t.result == Conclude(env.upstream(t.sent - 1)))
    decreases maxRetries - from
  {
    if !(from > 0 && env.cancelled(from)) && Retryable(env.upstream(from)) && from + 1 < maxRetries {
      LoopEnds(env, maxRetries, from + 1);
    }
  }

  // ---------------------------------------------------------------- what the loop answers

  /** The failures that may pass: a server's, or of the network with one of three words in its message. */
  ghost predicate MayPass(u: Upstream) {
    match u
    case NetworkError(m) => Occurs(m, "timeout") || Occurs(m, "connection") || Occurs(m, "EOF")
    case Reply(status, _) => 500 <= status < 600
  }

  /** The client's prefix adds no such word. */
  lemma PrefixAddsNothing(message: string)
    ensures IsTransient(SEND_PREFIX + message)
       <==> Occurs(message, "timeout") || Occurs(message, "connection") || Occurs(message, "EOF")
  {
    assert |SEND_PREFIX| == 24 && SEND_PREFIX[23] == ' ';
    assert forall i | 0 <= i < 23 :: SEND_PREFIX[i] == 't' ==> SEND_PREFIX[i + 1] != 'i';
    assert 'c' !in SEND_PREFIX && 'E' !in SEND_PREFIX;
    OccursBehind(SEND_PREFIX, message, "timeout");
    OccursBehind(SEND_PREFIX, message, "connection");
    OccursBehind(SEND_PREFIX, message, "EOF");
    ContainsMeans(SEND_PREFIX + message, "timeout");
    ContainsMeans(SEND_PREFIX + message, "connection");
    ContainsMeans(SEND_PREFIX + message, "EOF");
  }

  lemma RetriedIfItMayPass(u: Upstream)
    ensures Retryable(u) <==> MayPass(u)
  {
    if u.NetworkError? {
      PrefixAddsNothing(u.message);
    }
  }

  /**
   The loop by its answers alone. A request is followed by another exactly if its failure may pass, an
   attempt is left and the wait is not cancelled; and the last answer is the verdict: success for a 200
   that parses and nothing else, and each error for its own kind of answer.
   */
  lemma LoopAnswers(env: Env, maxRetries: nat)
    requires maxRetries > 0
    ensures
      var t := Loop(env, maxRetries, 0);
      var last := env.upstream(t.sent - 1);
      var cancelled := t.sent < maxRetries && MayPass(last);
      && t.sent <= maxRetries
      && (forall j | 0 < j < t.sent :: MayPass(env.upstream(j - 1)) && !env.cancelled(j))
      && (cancelled ==> env.cancelled(t.sent))
      && (t.result == Err(Cancelled) <==> cancelled)
      && (t.result.Ok? <==> last == Reply(200, true))
      && (t.result == Err(ParseFailed) <==> last == Reply(200, false))
      && (forall m :: t.result == Err(SendFailed(m)) <==> !cancelled && last == NetworkError(m))
      && (forall n :: t.result == Err(ClientError(n)) <==> last.Reply? && last.status == n && 400 <= n < 500)
      && (forall n :: t.result == Err(ServerError(n))
            <==> !cancelled && last.Reply? && last.status == n && n != 200 && !(400 <= n < 500))
  {
    LoopEnds(env, maxRetries, 0);
    SentMeansNotCancelled(env, maxRetries, 0);
    RetriesStop(env, maxRetries, 0);
    forall u
      ensures Retryable(u) <==> MayPass(u)
    {
      RetriedIfItMayPass(u);
    }
  }

  lemma {:induction false} RetriesStop(env: Env, maxRetries: nat, from: nat)
    requires from < maxRetries && (from > 0 ==> Retryable(env.upstream(from - 1)))
    ensures
      var t := Loop(env, maxRetries, from);
      t.sent < maxRetries && t.sent > 0 && Retryable(env.upstream(t.sent - 1)) ==> env.cancelled(t.sent)
    decreases maxRetries - from
  {
    if !(from > 0 && env.cancelled(from)) && Retryable(env.upstream(from)) && from + 1 < maxRetries {
      RetriesStop(env, maxRetries, from + 1);
    }
  }

  lemma NoRequestAfterClientError(env: Env, maxRetries: nat, k: nat)
    requires maxRetries > 0 && k < Loop(env, maxRetries, 0).sent
    requires env.upstream(k).Reply? && 400 <= env.upstream(k).status < 500
    ensures Loop(env, maxRetries, 0) == Trace(Err(ClientError(env.upstream(k).status)), k + 1, TotalWait(k + 1))
  {
    LoopEnds(env, maxRetries, 0);
    assert k == Loop(env, maxRetries, 0).sent - 1;
    assert forall j | 0 <= j < k :: Retryable(env.upstream(j));
    SentMeansNotCancelled(env, maxRetries, 0);
    FirstVerdict(env, maxRetries, k, 0);
  }

  lemma {:induction false} SentMeansNotCancelled(env: Env, maxRetries: nat, from: nat)
    requires from < maxRetries
    ensures forall j | from <= j < Loop(env, maxRetries, from).sent && j > 0 :: !env.cancelled(j)
    decreases maxRetries - from
  {
    if !(from > 0 && env.cancelled(from)) && Retryable(env.upstream(from)) && from + 1 < maxRetries {
      SentMeansNotCancelled(env, maxRetries, from + 1);
    }
  }

  // ---------------------------------------------------------------- the client

  /** Every error leaves the client wrapped in a "circuit breaker error". */
  datatype Response = Success | Wrapped(error: Error)

  class LLMClient {
    const circuit: Breaker.CircuitBreaker
    const maxRetries: nat

    constructor (circuit: Breaker.CircuitBreaker, maxRetries: int)
      ensures this.circuit == circuit && this.maxRetries >= 1
      ensures maxRetries >= 1 ==> this.maxRetries == maxRetries
    {
      this.circuit := circuit;
      this.maxRetries := if maxRetries < 1 then 1 else maxRetries;
    }

    /** One request and what becomes of its outcome: retried, or the verdict of the whole call. */
    method SendOnce(u: Upstream, attempt: nat) returns (retry: bool, result: Result<(), Error>)
      requires attempt < maxRetries
      ensures retry == (Retryable(u) && attempt + 1 < maxRetries)
      ensures !retry ==> result == Conclude(u)
    {
      match u
      case NetworkError(message) => {
        var retryable := IsTransient(SEND_PREFIX + message) && attempt < maxRetries - 1;
        return retryable, Err(SendFailed(message));
      }
      case Reply(status, decodes) => {
        if status == 200 {
          return false, if decodes then Ok(()) else Err(ParseFailed);
        }
        if 400 <= status < 500 {
          return false, Err(ClientError(status));
        }
        var retryable := IsRetryableStatus(status) && attempt < maxRetries - 1;
        return retryable, Err(ServerError(status));
      }
    }

    /** The loop inside the breaker's `fn`. */
    method SendWithRetries(env: Env) returns (result: Result<(), Error>, sent: nat, waited: nat)
      requires maxRetries >= 1
      ensures Trace(result, sent, waited) == Loop(env, maxRetries, 0)
    {
      result, sent, waited := Err(Cancelled), 0, 0;
      var attempt := 0;
      while attempt < maxRetries
        invariant attempt < maxRetries && sent == attempt && waited == TotalWait(attempt)
        invariant Loop(env, maxRetries, 0) == Loop(env, maxRetries, attempt)
      {
        if attempt > 0 {
          if env.cancelled(attempt) {
            return Err(Cancelled), sent, waited;
          }
          waited := waited + Wait(attempt);
        }
        assert waited == TotalWait(attempt + 1);
        sent := sent + 1;
        var retry;
        retry, result := SendOnce(env.upstream(attempt), attempt);
        if !retry {
          return;
        }
        attempt := attempt + 1;
      }
    }

    /**
     One call of the breaker however many requests it took: rejected, or counted once with exactly
     one outcome, a success only if the loop succeeded within a live context.
     */
    method ChatCompletion(env: Env, doneBefore: bool, doneAfter: bool, now: int, later: int)
      returns (response: Response, sent: nat)
      requires maxRetries >= 1
      modifies circuit
      ensures
        var before := old(circuit.Snapshot());
        var (b, ok) := Breaker.Allow(circuit.variant, circuit.config, before, now);
        var t := Loop(env, maxRetries, 0);
        && (!ok ==> sent == 0 && response == Wrapped(Rejected) && circuit.Snapshot() == b)
        && (ok && doneBefore ==> sent == 0 && response == Wrapped(Cancelled))
        && (ok && !doneBefore ==>
              && sent == t.sent
              && response == (if doneAfter then Wrapped(Cancelled) else if t.result.Ok? then Success else Wrapped(t.result.error)))
        && (ok ==> circuit.Snapshot()
                   == Breaker.Outcome(circuit.variant, circuit.config, Breaker.Count(b), response == Success, later))
    {
      var admitted := circuit.BeginCall(now);
      if !admitted {
        return Wrapped(Rejected), 0;
      }
      if doneBefore {
        circuit.EndCall(true, later);
        return Wrapped(Cancelled), 0;
      }
      var result, n, _ := SendWithRetries(env);
      sent := n;
      response := if doneAfter then Wrapped(Cancelled) else if result.Ok? then Success else Wrapped(result.error);
      circuit.EndCall(response != Success, later);
    }
  }

  /** On the breaker as written an admitted call adds exactly one to failures plus successes. */
  lemma OneOutcomeEach(cfg: Breaker.Config, b: Breaker.Breaker, now: int, later: int, ok: bool)
    requires b.state == Breaker.Closed
    ensures
      var (b1, admitted) := Breaker.Allow(Breaker.AsWritten, cfg, b, now);
      var b2 := Breaker.Outcome(Breaker.AsWritten, cfg, Breaker.Count(b1), ok, later);
      && admitted && b2.state == Breaker.Closed
      && b2.totalRequests == b.totalRequests + 1
      && b2.failures + b2.successes == b.failures + b.successes + 1
  {
  }

  // ---------------------------------------------------------------- what the handler answers

  /** The handler looks for an UpstreamError by type assertion, which does not see through wrapping. */
  function HandlerStatus(r: Response): int {
    match r case Success => 200 case Wrapped(_) => 502
  }

  /** The evident intent: the upstream's own status for a client error. */
  function IntendedStatus(r: Response): int {
    match r
    case Success => 200
    case Wrapped(ClientError(status)) => status
    case Wrapped(_) => 502
  }

  /** Upstream client errors never reach the caller: each is answered 502. */
  lemma ClientErrorsAreMasked(env: Env, maxRetries: nat)
    requires maxRetries > 0
    ensures
      var t := Loop(env, maxRetries, 0);
      var r := if t.result.Ok? then Success else Wrapped(t.result.error);
      HandlerStatus(r) != IntendedStatus(r)
      <==> env.upstream(t.sent - 1).Reply? && 400 <= env.upstream(t.sent - 1).status < 500
  {
    LoopEnds(env, maxRetries, 0);
  }
}
