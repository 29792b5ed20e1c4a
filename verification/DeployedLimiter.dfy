/** One Redis store serving every key, with expiry and inspections: the admission bound users see. */
module DeployedLimiter {
  import opened Common
  import opened TokenBucket
  import opened BucketRuns
  import opened BucketExpiry

  datatype Touch = Touch(key: string, event: Event)

  /** The answers given to checks of `key` while the store serves all keys. */
  function AnswersTo(key: string, store: Store, ts: seq<Touch>): seq<Answer>
    decreases ts
  {
    if ts == [] then []
    else
      var k := ts[0].key;
      match ts[0].event
      case Check(cfg, now, srv) =>
        var (after, answer) := CheckEntry(cfg, Lookup(store, k), now, srv);
        (if k == key then [answer] else []) + AnswersTo(key, store[k := after], ts[1..])
      case Inspect(cfg, now, now2, srv) =>
        AnswersTo(key, InspectKey(cfg, store, k, now, now2, srv), ts[1..])
  }

  function EventsOf(key: string, ts: seq<Touch>): seq<Event> {
    if ts == [] then []
    else (if ts[0].key == key then [ts[0].event] else []) + EventsOf(key, ts[1..])
  }

  /** Keys do not disturb each other. */
  lemma {:induction false} KeysAreIndependent(key: string, store: Store, ts: seq<Touch>)
    ensures AnswersTo(key, store, ts) == Forgetful(Lookup(store, key), EventsOf(key, ts))
    decreases ts
  {
    if ts != [] {
      var k := ts[0].key;
      var store' := match ts[0].event
        case Check(cfg, now, srv) => store[k := CheckEntry(cfg, Lookup(store, k), now, srv).0]
        case Inspect(cfg, now, now2, srv) => InspectKey(cfg, store, k, now, now2, srv);
      KeysAreIndependent(key, store', ts[1..]);
      if k == key {
        assert EventsOf(key, ts)[1..] == EventsOf(key, ts[1..]);
      } else {
        assert EventsOf(key, ts) == EventsOf(key, ts[1..]);
      }
    }
  }

  function ChecksOf(es: seq<Event>): (cs: seq<Event>)
    ensures forall c <- cs :: c.Check? && c in es
  {
    if es == [] then []
    else (if es[0].Check? then [es[0]] else []) + ChecksOf(es[1..])
  }

  lemma {:induction false} RetainingSeesChecks(s: Option<Bucket>, es: seq<Event>)
    ensures Retaining(s, es) == Retaining(s, ChecksOf(es))
    decreases es
  {
    if es != [] {
      if es[0].Inspect? {
        RetainingSeesChecks(s, es[1..]);
        assert ChecksOf(es) == ChecksOf(es[1..]);
      } else {
        RetainingSeesChecks(Some(Admit(es[0].cfg, s, es[0].now).0), es[1..]);
        assert ChecksOf(es)[1..] == ChecksOf(es[1..]);
      }
    }
  }

  function Admitted(answers: seq<Answer>): nat {
    if answers == [] then 0 else (if answers[0].allowed then 1 else 0) + Admitted(answers[1..])
  }

  lemma {:induction false} RetainingSplits(s: Option<Bucket>, xs: seq<Event>, ys: seq<Event>)
    requires forall c <- xs :: c.Check?
    ensures |Retaining(s, xs)| == |xs| && Admitted(Retaining(s, xs)) == Admissions(s, xs)
    ensures Retaining(s, xs + ys) == Retaining(s, xs) + Retaining(Run(s, xs), ys)
    decreases xs
  {
    if xs == [] {
      assert xs + ys == ys;
    } else {
      var s' := Step(s, xs[0]).0;
      assert (xs + ys)[0] == xs[0] && (xs + ys)[1..] == xs[1..] + ys;
      RetainingSplits(s', xs[1..], ys);
      assert Retaining(s, xs)[1..] == Retaining(s', xs[1..]);
    }
  }

  lemma RetainingWindow(s: Option<Bucket>, cs: seq<Event>, i: nat, j: nat)
    requires i <= j <= |cs| && forall c <- cs :: c.Check?
    ensures |Retaining(s, cs)| == |cs|
    ensures Retaining(s, cs)[i..j] == Retaining(Run(s, cs[..i]), cs[i..j])
  {
    assert cs == cs[..i] + cs[i..] && cs[i..] == cs[i..j] + cs[j..];
    RetainingSplits(s, cs[..i], cs[i..]);
    RetainingSplits(Run(s, cs[..i]), cs[i..j], cs[j..]);
    RetainingSplits(s, cs, []);
  }

  lemma RetainingAt(s: Option<Bucket>, cs: seq<Event>, j: nat)
    requires j < |cs| == |Retaining(s, cs)| && forall c <- cs :: c.Check?
    ensures Retaining(s, cs)[j].allowed == Step(Run(s, cs[..j]), cs[j]).1
  {
    assert cs == cs[..j] + cs[j..];
    RetainingSplits(s, cs[..j], cs[j..]);
    assert Retaining(s, cs)[j] == Retaining(Run(s, cs[..j]), cs[j..])[0];
  }

  function TimesOf(cs: seq<Event>): seq<int> {
    seq(|cs|, i requires 0 <= i < |cs| => cs[i].now)
  }

  /** Between any check i and any admitted check j, one capacity and the refill of the elapsed time. */
  ghost predicate Bounded(cfg: Config, answers: seq<Answer>, times: seq<int>) {
    && |answers| == |times|
    && forall i, j | 0 <= i <= j < |answers| && answers[j].allowed ::
         Within(cfg, Admitted(answers[i..j + 1]), times[j] - times[i])
  }

  lemma RetainingCounts(cs: seq<Event>, i: nat, j: nat)
    requires i <= j <= |cs| && forall c <- cs :: c.Check?
    ensures |Retaining(None, cs)| == |cs|
    ensures Admitted(Retaining(None, cs)[i..j]) == Admissions(Run(None, cs[..i]), cs[i..j])
  {
    RetainingWindow(None, cs, i, j);
    RetainingSplits(Run(None, cs[..i]), cs[i..j], []);
  }

  lemma RetainingWindowBound(cfg: Config, cs: seq<Event>, i: nat, j: nat)
    requires Uses(cs, cfg) && i <= j < |cs| == |Retaining(None, cs)| && forall c <- cs :: c.Check?
    requires Retaining(None, cs)[j].allowed
    ensures Within(cfg, Admitted(Retaining(None, cs)[i..j + 1]), cs[j].now - cs[i].now)
  {
    RetainingCounts(cs, i, j + 1);
    RetainingAt(None, cs, j);
    WindowBound(cfg, None, cs, i, j);
  }

  lemma RetainingBound(cfg: Config, cs: seq<Event>)
    requires Uses(cs, cfg) && forall c <- cs :: c.Check?
    ensures Bounded(cfg, Retaining(None, cs), TimesOf(cs))
  {
    RetainingCounts(cs, 0, 0);
    forall i, j | 0 <= i <= j < |cs| && Retaining(None, cs)[j].allowed
      ensures Within(cfg, Admitted(Retaining(None, cs)[i..j + 1]), TimesOf(cs)[j] - TimesOf(cs)[i])
    {
      RetainingWindowBound(cfg, cs, i, j);
    }
  }

  /** While expiry is hidden, Redis answers a key as the reference answers its checks. */
  lemma DeployedAnswers(cfg: Config, key: string, ts: seq<Touch>, now: int, srv: int)
    requires ExpiryHidden(cfg)
    requires Uses(EventsOf(key, ts), cfg) && Monotone(EventsOf(key, ts), now, srv)
    ensures AnswersTo(key, map[], ts) == Retaining(None, ChecksOf(EventsOf(key, ts)))
  {
    var es := EventsOf(key, ts);
    KeysAreIndependent(key, map[], ts);
    assert Lookup(map[], key) == None && Forgetful(None, es) == Retaining(None, es);
    RetainingSeesChecks(None, es);
  }

  /**
   The bound as deployed. A key always checked under one configuration whose TTL refills the
   bucket, in a store serving any other keys, with expiry and inspections: every window of its
   checks is bounded.
   */
  lemma DeployedBound(cfg: Config, key: string, ts: seq<Touch>, now: int, srv: int)
    requires TtlRefills(cfg)
    requires Uses(EventsOf(key, ts), cfg) && Monotone(EventsOf(key, ts), now, srv)
    ensures Bounded(cfg, AnswersTo(key, map[], ts), TimesOf(ChecksOf(EventsOf(key, ts))))
  {
    LongTtlHidesExpiry(cfg);
    DeployedAnswers(cfg, key, ts, now, srv);
    RetainingBound(cfg, ChecksOf(EventsOf(key, ts)));
  }

  /** Every history of a key in the store keeps the bound. */
  ghost predicate AlwaysBounded(cfg: Config) {
    forall key, ts, now, srv ::
      Uses(EventsOf(key, ts), cfg) && Monotone(EventsOf(key, ts), now, srv) ==>
        Bounded(cfg, AnswersTo(key, map[], ts), TimesOf(ChecksOf(EventsOf(key, ts))))
  }

  /** `n` checks at time 0, then `m` at `late`. */
  function Bursts(cfg: Config, n: nat, m: nat, late: int): seq<Event>
    decreases n, m
  {
    if n > 0 then [Check(cfg, 0, 0)] + Bursts(cfg, n - 1, m, late)
    else if m > 0 then [Check(cfg, late, late)] + Bursts(cfg, 0, m - 1, late)
    else []
  }

  lemma {:induction false} BurstsShape(cfg: Config, n: nat, m: nat, late: nat, now: int)
    requires 0 <= now <= late && (n > 0 ==> now == 0)
    ensures
      var es := Bursts(cfg, n, m, late);
      && Uses(es, cfg) && Monotone(es, now, now) && ChecksOf(es) == es && |es| == n + m
      && (n > 0 ==> es[0].now == 0) && (m > 0 ==> es[n + m - 1].now == late)
    decreases n, m
  {
    if n > 0 {
      BurstsShape(cfg, n - 1, m, late, 0);
      assert Bursts(cfg, n, m, late)[1..] == Bursts(cfg, n - 1, m, late);
    } else if m > 0 {
      BurstsShape(cfg, 0, m - 1, late, late);
      assert Bursts(cfg, 0, m, late)[1..] == Bursts(cfg, 0, m - 1, late);
    }
  }

  /** A level of at least `n`: every one of `n` checks at time `t` is admitted, whether the key lives on or not. */
  lemma AdmittedAgain(cfg: Config, entry: Option<Entry>, n: nat, t: int)
    requires 0 < n <= cfg.capacity && Refill(cfg, Live(entry, t), t) >= n as real
    ensures
      var (after, answer) := CheckEntry(cfg, entry, t, t);
      && answer.allowed
      && Refill(cfg, Live(Some(after), t), t) >= (n - 1) as real
      && after.deadline == t + 1000 * TtlSeconds(cfg)
  {
    assert Gain(cfg.rate, 0) == 0.0;
  }

  lemma {:induction false} BurstsAdmitted(cfg: Config, entry: Option<Entry>, n: nat, m: nat, late: nat)
    requires cfg.capacity >= 1 && n <= cfg.capacity && m <= cfg.capacity && late >= 1000 * TtlSeconds(cfg)
    requires n > 0 ==> Refill(cfg, Live(entry, 0), 0) >= n as real
    requires n == 0 && m > 0 ==> Refill(cfg, Live(entry, late), late) >= m as real
    ensures
      var answers := Forgetful(entry, Bursts(cfg, n, m, late));
      |answers| == n + m && Admitted(answers) == n + m && forall k | 0 <= k < n + m :: answers[k].allowed
    decreases n, m
  {
    if n > 0 {
      AdmittedAgain(cfg, entry, n, 0);
      assert Bursts(cfg, n, m, late)[1..] == Bursts(cfg, n - 1, m, late);
      BurstsAdmitted(cfg, Some(CheckEntry(cfg, entry, 0, 0).0), n - 1, m, late);
    } else if m > 0 {
      AdmittedAgain(cfg, entry, m, late);
      assert Bursts(cfg, 0, m, late)[1..] == Bursts(cfg, 0, m - 1, late);
      BurstsAdmitted(cfg, Some(CheckEntry(cfg, entry, late, late).0), 0, m - 1, late);
    }
  }

  function On(key: string, es: seq<Event>): seq<Touch> {
    if es == [] then [] else [Touch(key, es[0])] + On(key, es[1..])
  }

  lemma {:induction false} OnIsOnKey(key: string, es: seq<Event>)
    ensures EventsOf(key, On(key, es)) == es
  {
    if es != [] {
      OnIsOnKey(key, es[1..]);
      assert On(key, es)[1..] == On(key, es[1..]);
    }
  }

  lemma TooManyAdmitted(cfg: Config, answers: seq<Answer>, times: seq<int>, late: int)
    requires answers != [] && |answers| == |times| && answers[|answers| - 1].allowed
    requires Admitted(answers) == 2 * cfg.capacity && times[|times| - 1] - times[0] == late
    requires Gain(cfg.rate, late) < cfg.capacity as real
    ensures !Bounded(cfg, answers, times)
  {
    var n := |answers|;
    assert answers[0..n] == answers;
    assert !Within(cfg, Admitted(answers[0..n]), times[n - 1] - times[0]);
  }

  lemma TtlTooShort(cfg: Config) returns (late: nat)
    requires cfg.rate >= 0 && cfg.capacity >= 1 && !TtlRefills(cfg)
    ensures late >= 1000 * TtlSeconds(cfg) && Gain(cfg.rate, late) < cfg.capacity as real
  {
    late := if TtlSeconds(cfg) > 0 then 1000 * TtlSeconds(cfg) else 0;
    TtlGain(cfg);
    assert Gain(cfg.rate, 0) == 0.0;
  }

  /** Two bursts a TTL apart, both admitted whole. */
  lemma TwoBursts(cfg: Config, late: nat) returns (ts: seq<Touch>)
    requires cfg.capacity >= 1 && late >= 1000 * TtlSeconds(cfg)
    ensures
      var es := EventsOf("", ts);
      && Uses(es, cfg) && Monotone(es, 0, 0) && ChecksOf(es) == es && |es| == 2 * cfg.capacity
      && es[0].now == 0 && es[|es| - 1].now == late
    ensures
      var answers := AnswersTo("", map[], ts);
      |answers| == Admitted(answers) == 2 * cfg.capacity && answers[2 * cfg.capacity - 1].allowed
  {
    var es := Bursts(cfg, cfg.capacity, cfg.capacity, late);
    ts := On("", es);
    BurstsShape(cfg, cfg.capacity, cfg.capacity, late, 0);
    BurstsAdmitted(cfg, None, cfg.capacity, cfg.capacity, late);
    OnIsOnKey("", es);
    KeysAreIndependent("", map[], ts);
  }

  lemma BrokenHistory(cfg: Config, ts: seq<Touch>)
    requires Uses(EventsOf("", ts), cfg) && Monotone(EventsOf("", ts), 0, 0)
    requires !Bounded(cfg, AnswersTo("", map[], ts), TimesOf(ChecksOf(EventsOf("", ts))))
    ensures !AlwaysBounded(cfg)
  {
  }

  lemma ExpiryBreaksTheBound(cfg: Config)
    requires cfg.rate >= 0 && cfg.capacity >= 1 && !TtlRefills(cfg)
    ensures !AlwaysBounded(cfg)
  {
    var late := TtlTooShort(cfg);
    var ts := TwoBursts(cfg, late);
    var times := TimesOf(EventsOf("", ts));
    assert times[|times| - 1] - times[0] == late;
    TooManyAdmitted(cfg, AnswersTo("", map[], ts), times, late);
    BrokenHistory(cfg, ts);
  }

  /** The store keeps the bound for a configuration if and only if its TTL refills the bucket. */
  lemma BoundNeedsTtl(cfg: Config)
    requires cfg.rate >= 0 && cfg.capacity >= 1
    ensures AlwaysBounded(cfg) <==> TtlRefills(cfg)
  {
    if TtlRefills(cfg) {
      forall key, ts, now, srv | Uses(EventsOf(key, ts), cfg) && Monotone(EventsOf(key, ts), now, srv)
        ensures Bounded(cfg, AnswersTo(key, map[], ts), TimesOf(ChecksOf(EventsOf(key, ts))))
      {
        DeployedBound(cfg, key, ts, now, srv);
      }
    } else {
      ExpiryBreaksTheBound(cfg);
    }
  }

  /** The bound is reached: on a fresh key a burst of `capacity` requests is admitted whole. */
  lemma {:induction false} BurstIsAdmitted(cfg: Config, n: nat, s: Option<Bucket>, now: int, srv: int)
    requires Refill(cfg, s, now) >= n as real
    ensures Admissions(s, seq(n, _ => Check(cfg, now, srv))) == n
    decreases n
  {
    if n > 0 {
      var b := Admit(cfg, s, now).0;
      assert Gain(cfg.rate, 0) == 0.0;
      BurstIsAdmitted(cfg, n - 1, Some(b), now, srv);
      assert seq(n, _ => Check(cfg, now, srv))[1..] == seq(n - 1, _ => Check(cfg, now, srv));
    }
  }
}
