/** The lazy bucket of the script refines one that drips `rate/1000` tokens on every millisecond tick. */
module EagerBucket {
  import opened Common
  import opened TokenBucket

  /** A tick of the clock, a check, or a level query whose second clock reading comes `skew` later. */
  datatype Beat = Tick | Request | Query(skew: nat)

  datatype Reply = Checked(answer: Answer) | Level(tokens: real)

  /** The eager bucket: tokens are added and clamped on every tick. Before the first check there is no key. */
  function Eager(cfg: Config, known: bool, tokens: real, beats: seq<Beat>): seq<Reply>
    decreases beats
  {
    if beats == [] then []
    else
      match beats[0]
      case Tick => Eager(cfg, known, Min(cfg.capacity as real, tokens + Gain(cfg.rate, 1)), beats[1..])
      case Request =>
        var left := if tokens >= 1.0 then tokens - 1.0 else tokens;
        [Checked(Answer(tokens >= 1.0, left))] + Eager(cfg, true, left, beats[1..])
      case Query(_) => [Level(if known then tokens else 0.0)] + Eager(cfg, known, tokens, beats[1..])
  }

  /** The scripts under the same clock: ticks pass unseen, a check or a query reads `now`. */
  function Lazy(cfg: Config, s: Option<Bucket>, now: int, beats: seq<Beat>): seq<Reply>
    decreases beats
  {
    if beats == [] then []
    else
      match beats[0]
      case Tick => Lazy(cfg, s, now + 1, beats[1..])
      case Request =>
        var (b, ok) := Admit(cfg, s, now);
        [Checked(Answer(ok, b.tokens))] + Lazy(cfg, Some(b), now, beats[1..])
      case Query(skew) =>
        if s.None? then [Level(0.0)] + Lazy(cfg, s, now, beats[1..])
        else
          var b := InspectBucket(cfg, s.value, now, now + skew);
          [Level(b.tokens)] + Lazy(cfg, Some(b), now, beats[1..])
  }

  lemma RefillTicks(cfg: Config, s: Option<Bucket>, now: int)
    requires cfg.rate >= 0
    ensures Refill(cfg, s, now + 1) == Min(cfg.capacity as real, Refill(cfg, s, now) + Gain(cfg.rate, 1))
  {
    if s.Some? {
      var d := now - s.value.lastUpdate;
      var x, y, r := d as real / 1000.0, 1.0 / 1000.0, cfg.rate as real;
      assert (d + 1) as real / 1000.0 == x + y;
      assert (x + y) * r == x * r + y * r;
    }
  }

  /** A bucket as the scripts leave it: not above capacity, not from the future. */
  ghost predicate Past(cfg: Config, s: Option<Bucket>, now: int) {
    s.Some? ==> s.value.tokens <= cfg.capacity as real && s.value.lastUpdate <= now
  }

  lemma RefillAtOnce(cfg: Config, b: Bucket)
    requires b.tokens <= cfg.capacity as real
    ensures Refill(cfg, Some(b), b.lastUpdate) == b.tokens
  {
    assert Gain(cfg.rate, 0) == 0.0;
  }

  lemma {:induction false} LazyFollowsEager(cfg: Config, s: Option<Bucket>, now: int, beats: seq<Beat>)
    requires cfg.rate >= 0 && Past(cfg, s, now)
    ensures Eager(cfg, s.Some?, Refill(cfg, s, now), beats) == Lazy(cfg, s, now, beats)
    decreases beats
  {
    if beats != [] {
      match beats[0]
      case Tick =>
        RefillTicks(cfg, s, now);
        LazyFollowsEager(cfg, s, now + 1, beats[1..]);
      case Request =>
        var b := Admit(cfg, s, now).0;
        RefillAtOnce(cfg, b);
        LazyFollowsEager(cfg, Some(b), now, beats[1..]);
      case Query(skew) =>
        if s.Some? {
          var b := InspectBucket(cfg, s.value, now, now + skew);
          RefillAtOnce(cfg, b);
          RefillAtOnce(cfg, s.value);
          LazyFollowsEager(cfg, Some(b), now, beats[1..]);
        } else {
          LazyFollowsEager(cfg, s, now, beats[1..]);
        }
    }
  }

  /** From a fresh key, the two give the same verdicts and the same levels to every schedule. */
  lemma LazyRefinesEager(cfg: Config, now: int, beats: seq<Beat>)
    requires cfg.rate >= 0
    ensures Lazy(cfg, None, now, beats) == Eager(cfg, false, cfg.capacity as real, beats)
  {
    LazyFollowsEager(cfg, None, now, beats);
  }
}
