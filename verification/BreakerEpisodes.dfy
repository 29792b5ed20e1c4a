/** Half-open episodes of the repaired breaker: how probes end them, and how they get stuck. */
module BreakerEpisodes {
  import opened Common
  import opened CircuitBreaker
  import opened BreakerRuns

  /** A call that runs alone, with its outcome if it is admitted. */
  datatype Probe = Probe(ok: bool, now: int)

  function CallAlone(cfg: Config, b: Breaker, p: Probe): Breaker {
    var (b1, admitted) := Allow(Repaired, cfg, b, p.now);
    if admitted then Outcome(Repaired, cfg, Count(b1), p.ok, p.now) else b1
  }

  function Calls(cfg: Config, b: Breaker, ps: seq<Probe>): Breaker
    decreases ps
  {
    if ps == [] then b else Calls(cfg, CallAlone(cfg, b, ps[0]), ps[1..])
  }

  /** The calls up to the first that leaves the breaker in a state other than half-open. */
  function Episode(cfg: Config, b: Breaker, ps: seq<Probe>): Breaker
    decreases ps
  {
    if ps == [] then b
    else
      var b1 := CallAlone(cfg, b, ps[0]);
      if b1.state == HalfOpen then Episode(cfg, b1, ps[1..]) else b1
  }

  lemma {:induction false} EpisodeIsCalls(cfg: Config, b: Breaker, ps: seq<Probe>)
    requires Episode(cfg, b, ps).state == HalfOpen
    ensures Calls(cfg, b, ps) == Episode(cfg, b, ps)
    decreases ps
  {
    if ps != [] {
      EpisodeIsCalls(cfg, CallAlone(cfg, b, ps[0]), ps[1..]);
    }
  }

  function Oks(ps: seq<Probe>): (o: seq<bool>)
    ensures |o| == |ps| && forall i | 0 <= i < |o| :: o[i] == ps[i].ok
  {
    seq(|ps|, i requires 0 <= i < |ps| => ps[i].ok)
  }

  // ---------------------------------------------------------------- the law of an episode

  /** Open, as a transition leaves it. */
  predicate JustOpened(b: Breaker) {
    b.state == Open && b.failures == 0 && b.successes == 0
  }

  /** One of the first two probes succeeds; there is a second one if anything is admitted besides the first. */
  predicate EarlySuccess(cfg: Config, o: seq<bool>) {
    (|o| >= 1 && o[0]) || (|o| >= 2 && cfg.halfOpenMaxRequests >= 1 && o[1])
  }

  /** The admitted probe number `p` fails and makes a sample of at least ten with enough failures. */
  ghost predicate TripsAt(cfg: Config, o: seq<bool>, p: nat) {
    0 < p <= |o| && p <= cfg.halfOpenMaxRequests + 1 && !o[p - 1] && EnoughFailures(cfg, o[..p])
  }

  lemma {:induction false} UsedUp(cfg: Config, b: Breaker, ps: seq<Probe>)
    requires b.state == HalfOpen && b.halfOpenRequests >= cfg.halfOpenMaxRequests
    ensures Episode(cfg, b, ps) == b
    decreases ps
  {
    if ps != [] {
      UsedUp(cfg, b, ps[1..]);
    }
  }

  /** The breaker after `k` probes that left it half-open. */
  ghost predicate Midway(cfg: Config, b: Breaker, o: seq<bool>, k: nat) {
    && 1 <= k <= |o| && !o[0] && (k >= 2 ==> !o[1])
    && b.state == HalfOpen && b.halfOpenRequests == k - 1
    && b.failures == CountOf(o[..k], false) && b.successes == CountOf(o[..k], true)
    && (k >= 2 ==> k - 1 <= cfg.halfOpenMaxRequests)
  }

  lemma CountNext(o: seq<bool>, k: nat)
    requires k < |o|
    ensures CountOf(o[..k + 1], true) == CountOf(o[..k], true) + (if o[k] then 1 else 0)
    ensures CountOf(o[..k + 1], false) == CountOf(o[..k], false) + (if o[k] then 0 else 1)
    ensures CountOf(o[..k], true) + CountOf(o[..k], false) == k
  {
    assert o[..k + 1] == o[..k] + [o[k]];
    CountSnoc(o[..k], o[k]);
    CountsAdd(o[..k]);
  }

  lemma {:induction false} TwoFailures(o: seq<bool>, k: nat)
    requires 2 <= k <= |o| && !o[0] && !o[1]
    ensures CountOf(o[..k], true) <= k - 2
    decreases k
  {
    CountNext(o, k - 1);
    if k == 2 {
      CountNext(o, 0);
    } else {
      TwoFailures(o, k - 1);
    }
  }

  lemma TrippingIsEnough(cfg: Config, seen: seq<bool>, failures: int)
    requires failures == CountOf(seen, false)
    ensures Tripping(cfg, failures, |seen|) <==> EnoughFailures(cfg, seen)
  {
    if |seen| >= MIN_SAMPLES {
      Rate(failures, |seen|, cfg.failureThreshold);
    }
  }

  /** The next admitted probe closes the breaker, opens it, or leaves it midway. */
  lemma NextSuccess(cfg: Config, b: Breaker, o: seq<bool>, k: nat, now: int)
    requires k < |o| && Midway(cfg, b, o, k) && k - 1 < cfg.halfOpenMaxRequests && o[k]
    ensures
      var b1 := CallAlone(cfg, b, Probe(true, now));
      if k == 1 then b1.state == Closed else Midway(cfg, b1, o, k + 1)
  {
    CountNext(o, k);
    if k >= 2 {
      TwoFailures(o, k);
    }
  }

  lemma NextFailure(cfg: Config, b: Breaker, o: seq<bool>, k: nat, now: int)
    requires k < |o| && Midway(cfg, b, o, k) && k - 1 < cfg.halfOpenMaxRequests && !o[k]
    ensures
      var b1 := CallAlone(cfg, b, Probe(false, now));
      if TripsAt(cfg, o, k + 1) then b1.state == Open else Midway(cfg, b1, o, k + 1)
  {
    CountNext(o, k);
    TrippingIsEnough(cfg, o[..k + 1], b.failures + 1);
    var trips := Tripping(cfg, b.failures + 1, k + 1);
    assert b.failures + 1 + b.successes == k + 1;
    assert trips <==> TripsAt(cfg, o, k + 1);
    var b1 := CallAlone(cfg, b, Probe(false, now));
    if !trips {
      assert b1.state == HalfOpen && b1.failures == b.failures + 1 && b1.successes == b.successes;
    }
  }

  /** Some admitted probe after number `k` trips the breaker. */
  ghost predicate Reopens(cfg: Config, o: seq<bool>, k: nat) {
    exists p :: p > k && TripsAt(cfg, o, p)
  }

  lemma ReopensNext(cfg: Config, o: seq<bool>, k: nat)
    ensures Reopens(cfg, o, k) <==> TripsAt(cfg, o, k + 1) || Reopens(cfg, o, k + 1)
  {
    if TripsAt(cfg, o, k + 1) {
      assert k + 1 > k;
    }
  }

  /** The state an episode of `n` probes ends in, and the admissions it has used if it is still half-open. */
  ghost predicate Ends(cfg: Config, t: Breaker, n: nat, closes: bool, reopens: bool) {
    && (t.state == Closed <==> closes)
    && (t.state == Open <==> !closes && reopens)
    && (t.state == HalfOpen && n > cfg.halfOpenMaxRequests ==> t.halfOpenRequests >= cfg.halfOpenMaxRequests)
    && (t.state == HalfOpen && n <= cfg.halfOpenMaxRequests + 1 ==> t.halfOpenRequests == n - 1)
  }

  lemma {:induction false} EpisodeFrom(cfg: Config, b: Breaker, ps: seq<Probe>, k: nat)
    requires Midway(cfg, b, Oks(ps), k)
    ensures Ends(cfg, Episode(cfg, b, ps[k..]), |ps|, k == 1 && EarlySuccess(cfg, Oks(ps)), Reopens(cfg, Oks(ps), k))
    decreases |ps| - k
  {
    var o := Oks(ps);
    if k - 1 >= cfg.halfOpenMaxRequests {
      UsedUp(cfg, b, ps[k..]);
    } else if k < |ps| {
      var b1 := CallAlone(cfg, b, ps[k]);
      assert ps[k] == Probe(o[k], ps[k].now) && ps[k..][0] == ps[k] && ps[k..][1..] == ps[k + 1..];
      ReopensNext(cfg, o, k);
      if o[k] {
        NextSuccess(cfg, b, o, k, ps[k].now);
      } else {
        NextFailure(cfg, b, o, k, ps[k].now);
      }
      if b1.state == HalfOpen {
        EpisodeFrom(cfg, b1, ps, k + 1);
      }
    }
  }

  /**
   The law of an episode, for every sequence of probes: it closes exactly if one of the first two
   succeeds; else it reopens exactly if a later failure completes a sample with enough failures;
   else it stays half-open, with its admissions used up once there are more probes than they.
   */
  lemma EpisodeLaw(cfg: Config, b: Breaker, ps: seq<Probe>)
    requires JustOpened(b) && ps != [] && TimedOut(cfg, b, ps[0].now)
    ensures Ends(cfg, Episode(cfg, b, ps), |ps|, EarlySuccess(cfg, Oks(ps)), Reopens(cfg, Oks(ps), 0))
  {
    var o := Oks(ps);
    var b1 := CallAlone(cfg, b, ps[0]);
    ReopensNext(cfg, o, 0);
    if !o[0] {
      CountNext(o, 0);
      assert o[..0] == [];
      assert Midway(cfg, b1, o, 1);
      EpisodeFrom(cfg, b1, ps, 1);
    }
  }

  // ---------------------------------------------------------------- runs that get stuck

  /** The run from a new breaker ends half-open with no call under way, and none is admitted ever again. */
  ghost predicate Sticks(cfg: Config, now: int, es: seq<Event>, t: Sys) {
    Reaches(cfg, Start(now), es, t) && Quiescent(t) && NeverAdmits(cfg, t)
  }

  predicate Idle(s: Sys) {
    s.admitted == 0 && s.running == 0
  }

  lemma {:induction false} ReachesOn(cfg: Config, s: Sys, xs: seq<Event>, t: Sys, ys: seq<Event>, u: Sys)
    requires Reaches(cfg, s, xs, t) && Reaches(cfg, t, ys, u)
    ensures Reaches(cfg, s, xs + ys, u)
    decreases xs
  {
    if xs == [] {
      assert xs + ys == ys;
    } else {
      assert (xs + ys)[0] == xs[0] && (xs + ys)[1..] == xs[1..] + ys;
      ReachesOn(cfg, Next(cfg, s, xs[0]), xs[1..], t, ys, u);
    }
  }

  lemma CallReaches(cfg: Config, s: Sys, p: Probe) returns (es: seq<Event>, t: Sys)
    requires Idle(s) && p.now >= s.clock
    ensures Reaches(cfg, s, es, t) && Idle(t) && t.clock == p.now
    ensures t.b == CallAlone(cfg, s.b, p)
  {
    var s1 := Next(cfg, s, Arrive(p.now));
    if Allow(Repaired, cfg, s.b, p.now).1 {
      var s2 := Next(cfg, s1, Begin);
      es, t := [Arrive(p.now), Begin, End(p.ok, p.now)], Next(cfg, s2, End(p.ok, p.now));
      assert es[1..] == [Begin, End(p.ok, p.now)] && es[1..][1..] == [End(p.ok, p.now)];
      assert Reaches(cfg, t, [], t) && Reaches(cfg, s2, [End(p.ok, p.now)], t);
      assert Reaches(cfg, s1, es[1..], t);
    } else {
      es, t := [Arrive(p.now)], s1;
      assert Reaches(cfg, s1, es[1..], s1);
    }
  }

  /** Calls one after another are a run of the system. */
  lemma {:induction false} CallsReach(cfg: Config, s: Sys, ps: seq<Probe>) returns (es: seq<Event>, t: Sys)
    requires Idle(s) && forall i | 0 <= i < |ps| :: ps[i].now >= s.clock && ps[i].now == ps[0].now
    ensures Reaches(cfg, s, es, t) && Idle(t) && t.clock == if ps == [] then s.clock else ps[0].now
    ensures t.b == Calls(cfg, s.b, ps)
    decreases ps
  {
    if ps == [] {
      es, t := [], s;
    } else {
      var xs, s1 := CallReaches(cfg, s, ps[0]);
      var ys, u := CallsReach(cfg, s1, ps[1..]);
      ReachesOn(cfg, s, xs, s1, ys, u);
      es, t := xs + ys, u;
    }
  }

  function Failing(n: nat, now: int): seq<Probe> {
    seq(n, _ => Probe(false, now))
  }

  lemma AllFailuresTrip(cfg: Config, n: int)
    requires n >= MIN_SAMPLES && cfg.failureThreshold <= 100.0
    ensures Tripping(cfg, n, n)
  {
    assert n as real / n as real == 1.0;
  }

  /** Ten failures open a breaker with a threshold of at most 100 percent. */
  lemma {:induction false} FailuresOpen(cfg: Config, b: Breaker, n: nat, now: int)
    requires cfg.failureThreshold <= 100.0 && b.state == Closed && b.successes == 0
    requires n >= 1 && 0 <= b.failures == MIN_SAMPLES - n
    ensures JustOpened(Calls(cfg, b, Failing(n, now))) && Calls(cfg, b, Failing(n, now)).lastFailure == Some(now)
    decreases n
  {
    var b1 := CallAlone(cfg, b, Probe(false, now));
    assert Failing(n, now)[1..] == Failing(n - 1, now);
    if n == 1 {
      AllFailuresTrip(cfg, MIN_SAMPLES);
      assert Calls(cfg, b1, []) == b1;
    } else {
      FailuresOpen(cfg, b1, n - 1, now);
    }
  }

  /** Two failing probes, then succeeding ones. */
  function LateSuccesses(n: nat, now: int): seq<Probe> {
    seq(n, i => Probe(i >= 2, now))
  }

  /** As many of them as are admitted leave any breaker half-open. */
  lemma LateSuccessesStick(cfg: Config, b: Breaker, n: nat, now: int)
    requires JustOpened(b) && TimedOut(cfg, b, now) && n >= 1
    ensures
      var t := Calls(cfg, b, LateSuccesses(n, now));
      && t.state == HalfOpen
      && (n > cfg.halfOpenMaxRequests ==> t.halfOpenRequests >= cfg.halfOpenMaxRequests)
      && (n <= cfg.halfOpenMaxRequests + 1 ==> t.halfOpenRequests == n - 1)
  {
    var ps := LateSuccesses(n, now);
    EpisodeLaw(cfg, b, ps);
    assert forall p :: !TripsAt(cfg, Oks(ps), p);
    EpisodeIsCalls(cfg, b, ps);
  }

  lemma {:induction false} AllFailuresCount(o: seq<bool>)
    requires forall i | 0 <= i < |o| :: !o[i]
    ensures CountOf(o, false) == |o|
  {
    if o != [] {
      AllFailuresCount(o[..|o| - 1]);
    }
  }

  /** Probes that all fail reopen the breaker exactly if it admits enough of them for a sample. */
  lemma FailedProbesStick(cfg: Config, b: Breaker, now: int)
    requires JustOpened(b) && TimedOut(cfg, b, now) && cfg.failureThreshold <= 100.0 && cfg.halfOpenMaxRequests >= 0
    ensures
      var t := Episode(cfg, b, Failing(cfg.halfOpenMaxRequests + 1, now));
      && (t.state == Open <==> cfg.halfOpenMaxRequests > 8)
      && (t.state == HalfOpen <==> cfg.halfOpenMaxRequests <= 8)
  {
    var ps := Failing(cfg.halfOpenMaxRequests + 1, now);
    EpisodeLaw(cfg, b, ps);
    if cfg.halfOpenMaxRequests > 8 {
      AllFailuresCount(Oks(ps)[..MIN_SAMPLES]);
      assert TripsAt(cfg, Oks(ps), MIN_SAMPLES);
    }
  }

  lemma TrippedRun(cfg: Config, now: int) returns (es: seq<Event>, t: Sys)
    requires cfg.failureThreshold <= 100.0
    ensures Reaches(cfg, Start(now), es, t) && Idle(t) && JustOpened(t.b) && t.b.lastFailure == Some(now) && t.clock == now
  {
    es, t := CallsReach(cfg, Start(now), Failing(MIN_SAMPLES, now));
    FailuresOpen(cfg, NEW_BREAKER, MIN_SAMPLES, now);
  }

  lemma StickingRun(cfg: Config, now: int) returns (es: seq<Event>, t: Sys)
    requires cfg.failureThreshold <= 100.0
    ensures Sticks(cfg, now, es, t)
  {
    var xs, s := TrippedRun(cfg, now);
    var later := if cfg.resetTimeout < 0 then now else now + cfg.resetTimeout + 1;
    var n := if cfg.halfOpenMaxRequests >= 0 then cfg.halfOpenMaxRequests + 1 else 1;
    var ys, u := CallsReach(cfg, s, LateSuccesses(n, later));
    LateSuccessesStick(cfg, s.b, n, later);
    ReachesOn(cfg, Start(now), xs, s, ys, u);
    StuckForever(cfg, u);
    es, t := xs + ys, u;
  }

  lemma ProductGrows(a: real, b: real, n: real)
    requires a > b && n > 0.0
    ensures a * n > b * n
  {
    assert (a - b) * n > 0.0;
    assert (a - b) * n == a * n - b * n;
  }

  lemma TooFewFailures(cfg: Config, seen: seq<bool>)
    requires cfg.failureThreshold > 100.0
    ensures !EnoughFailures(cfg, seen)
  {
    CountsAdd(seen);
    if |seen| > 0 {
      ProductGrows(cfg.failureThreshold, 100.0, |seen| as real);
      assert CountOf(seen, false) as real <= |seen| as real;
    }
  }

  /** With a threshold above 100 percent nothing ever opens. */
  lemma {:induction false} NeverOpens(cfg: Config, s: Sys, es: seq<Event>, t: Sys)
    requires cfg.failureThreshold > 100.0
    ensures Inv(cfg, s) && s.b.state == Closed && Reaches(cfg, s, es, t) ==> t.b.state == Closed
    decreases es
  {
    if es != [] && Inv(cfg, s) && s.b.state == Closed && Reaches(cfg, s, es, t) {
      StepIsSafe(cfg, s, es[0]);
      var s1 := Next(cfg, s, es[0]);
      TooFewFailures(cfg, s.outcomes + [false]);
      NeverOpens(cfg, s1, es[1..], t);
    }
  }

  /**
   While admissions and outcomes are atomic: from a new breaker some run ends half-open and rejecting
   every call forever, whatever HalfOpenMaxRequests and the timeout are, exactly if the threshold
   is one that failures can reach at all. `BreakerLaws.GetsStuck` is the law for every schedule.
   */
  lemma AtomicCallsStick(cfg: Config, now: int)
    ensures (exists es, t :: Sticks(cfg, now, es, t)) <==> cfg.failureThreshold <= 100.0
  {
    if cfg.failureThreshold <= 100.0 {
      var es, t := StickingRun(cfg, now);
    } else {
      forall es, t | Reaches(cfg, Start(now), es, t)
        ensures !Sticks(cfg, now, es, t)
      {
        StartIsSafe(cfg, now);
        NeverOpens(cfg, Start(now), es, t);
      }
    }
  }
}
