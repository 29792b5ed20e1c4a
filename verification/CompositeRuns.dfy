/** Runs of the composite limiter: requests and status queries, bounded by every dimension. */
module CompositeRuns {
  import opened Common
  import opened TokenBucket
  import opened BucketRuns
  import opened BucketExpiry
  import opened DeployedLimiter
  import opened Composite

  /** A `Check` of a request, or a `GetRateLimitStatus`. */
  datatype Act = Ask(r: Request) | Peek(r: Request)

  /** What an act does in one dimension. */
  function TouchDim(peek: bool, cfg: Config, prefix: string, store: Store, d: Dim): (Store, Option<Answer>) {
    if peek then (InspectDim(cfg, prefix, store, d), None) else CheckDim(cfg, prefix, store, d)
  }

  function Perform(cs: Configs, prefix: string, store: Store, a: Act): (Store, Answers) {
    var (store1, ip) := TouchDim(a.Peek?, cs.ip, prefix, store, a.r.ip);
    var (store2, apiKey) := TouchDim(a.Peek?, cs.apiKey, prefix, store1, a.r.apiKey);
    var (store3, tenant) := TouchDim(a.Peek?, cs.tenant, prefix, store2, a.r.tenant);
    (store3, Answers(ip, apiKey, tenant))
  }

  /** That is what `Check` and `GetRateLimitStatus` do. */
  lemma PerformIsTheCode(cs: Configs, prefix: string, store: Store, r: Request)
    ensures Perform(cs, prefix, store, Ask(r)) == CheckAll(cs, prefix, store, r)
    ensures Perform(cs, prefix, store, Peek(r)).0 == InspectAll(cs, prefix, store, r)
  {
  }

  /** The answers to the requests among the acts. */
  function RunAll(cs: Configs, prefix: string, store: Store, acts: seq<Act>): seq<Answers>
    decreases acts
  {
    if acts == [] then []
    else
      var (store', a) := Perform(cs, prefix, store, acts[0]);
      (if acts[0].Ask? then [a] else []) + RunAll(cs, prefix, store', acts[1..])
  }

  function Asked(acts: seq<Act>): seq<Request> {
    if acts == [] then [] else (if acts[0].Ask? then [acts[0].r] else []) + Asked(acts[1..])
  }

  /** The touches of the store that an act makes. */
  function TouchOf(peek: bool, cfg: Config, prefix: string, d: Dim): seq<Touch> {
    if Evaluated(d) then [Touch(prefix + d.key.value, EventOf(peek, cfg, d))] else []
  }

  function EventOf(peek: bool, cfg: Config, d: Dim): Event {
    if peek then Inspect(cfg, d.now, d.now2, d.srv) else Check(cfg, d.now, d.srv)
  }

  function TouchesOf(cs: Configs, prefix: string, a: Act): seq<Touch> {
    TouchOf(a.Peek?, cs.ip, prefix, a.r.ip) + TouchOf(a.Peek?, cs.apiKey, prefix, a.r.apiKey)
    + TouchOf(a.Peek?, cs.tenant, prefix, a.r.tenant)
  }

  function AllTouches(cs: Configs, prefix: string, acts: seq<Act>): seq<Touch> {
    if acts == [] then [] else TouchesOf(cs, prefix, acts[0]) + AllTouches(cs, prefix, acts[1..])
  }

  function AllowedCount(answers: seq<Answers>): nat {
    if answers == [] then 0 else (if Allowed(answers[0]) then 1 else 0) + AllowedCount(answers[1..])
  }

  /** Where dimension `w` is evaluated, it and no other uses `key`. */
  predicate PinnedAct(a: Act, w: Which, key: string) {
    forall v: Which :: Evaluated(Pick(a.r, v)) ==> (Pick(a.r, v).key == Some(key) <==> v == w)
  }

  ghost predicate Pinned(acts: seq<Act>, w: Which, key: string) {
    forall a <- acts :: PinnedAct(a, w, key)
  }

  /** The history of the key of dimension `w`. */
  function DimEvents(cfg: Config, w: Which, acts: seq<Act>): seq<Event> {
    if acts == [] then []
    else
      var d := Pick(acts[0].r, w);
      var rest := DimEvents(cfg, w, acts[1..]);
      if Evaluated(d) then [EventOf(acts[0].Peek?, cfg, d)] + rest else rest
  }

  /** The times of the requests that dimension `w` is evaluated for. */
  function DimTimes(w: Which, rs: seq<Request>): seq<int> {
    if rs == [] then []
    else if Evaluated(Pick(rs[0], w)) then [Pick(rs[0], w).now] + DimTimes(w, rs[1..])
    else DimTimes(w, rs[1..])
  }

  /** The requests that dimension `w` lets pass unseen: it has no key for them, or its check fails. */
  function Skipped(w: Which, rs: seq<Request>): nat {
    if rs == [] then 0 else (if Evaluated(Pick(rs[0], w)) then 0 else 1) + Skipped(w, rs[1..])
  }

  function DimAnswers(w: Which, answers: seq<Answers>): seq<Answer> {
    if answers == [] then []
    else if PickAnswer(answers[0], w).Some? then [PickAnswer(answers[0], w).value] + DimAnswers(w, answers[1..])
    else DimAnswers(w, answers[1..])
  }

  // ---------------------------------------------------------------- one act

  predicate Touches(d: Dim, prefix: string, k: string) {
    Evaluated(d) && prefix + d.key.value == k
  }

  lemma TouchStep(k: string, peek: bool, cfg: Config, prefix: string, store: Store, d: Dim, rest: seq<Touch>)
    ensures
      var (store', a) := TouchDim(peek, cfg, prefix, store, d);
      var answers := AnswersTo(k, store, TouchOf(peek, cfg, prefix, d) + rest);
      if !peek && Touches(d, prefix, k) then a.Some? && answers == [a.value] + AnswersTo(k, store', rest)
      else answers == AnswersTo(k, store', rest)
  {
    if Evaluated(d) {
      var ts := TouchOf(peek, cfg, prefix, d) + rest;
      assert ts[1..] == rest;
    } else {
      assert TouchOf(peek, cfg, prefix, d) + rest == rest;
    }
  }

  lemma EventStep(k: string, peek: bool, cfg: Config, prefix: string, d: Dim, rest: seq<Touch>)
    ensures EventsOf(k, TouchOf(peek, cfg, prefix, d) + rest)
         == if Touches(d, prefix, k) then [EventOf(peek, cfg, d)] + EventsOf(k, rest) else EventsOf(k, rest)
  {
    if Evaluated(d) {
      assert (TouchOf(peek, cfg, prefix, d) + rest)[1..] == rest;
    } else {
      assert TouchOf(peek, cfg, prefix, d) + rest == rest;
    }
  }

  lemma Regroup(t1: seq<Touch>, t2: seq<Touch>, t3: seq<Touch>, rest: seq<Touch>)
    ensures t1 + t2 + t3 + rest == t1 + (t2 + (t3 + rest))
  {
  }

  lemma OnlyOwnTouches(a: Act, w: Which, prefix: string, key: string)
    requires PinnedAct(a, w, key)
    ensures Touches(a.r.ip, prefix, prefix + key) <==> w == IP && Evaluated(a.r.ip)
    ensures Touches(a.r.apiKey, prefix, prefix + key) <==> w == APIKey && Evaluated(a.r.apiKey)
    ensures Touches(a.r.tenant, prefix, prefix + key) <==> w == Tenant && Evaluated(a.r.tenant)
  {
    forall v: Which
      ensures Touches(Pick(a.r, v), prefix, prefix + key) <==> v == w && Evaluated(Pick(a.r, v))
    {
      if v != w && Evaluated(Pick(a.r, v)) {
        PrefixIsInjective(prefix, Pick(a.r, v).key.value, key);
      }
    }
    assert Pick(a.r, IP) == a.r.ip && Pick(a.r, APIKey) == a.r.apiKey && Pick(a.r, Tenant) == a.r.tenant;
  }

  /** What one act adds to the answers of a pinned key. */
  lemma PinnedStep(cs: Configs, prefix: string, store: Store, a: Act, rest: seq<Touch>, w: Which, key: string)
    requires PinnedAct(a, w, key)
    ensures
      var (store', answers) := Perform(cs, prefix, store, a);
      var dim := AnswersTo(prefix + key, store, TouchesOf(cs, prefix, a) + rest);
      && (a.Ask? ==> PickAnswer(answers, w).Some? == Evaluated(Pick(a.r, w)))
      && if a.Ask? && Evaluated(Pick(a.r, w))
         then dim == [PickAnswer(answers, w).value] + AnswersTo(prefix + key, store', rest)
         else dim == AnswersTo(prefix + key, store', rest)
  {
    var k, p := prefix + key, a.Peek?;
    var (store1, a1) := TouchDim(p, cs.ip, prefix, store, a.r.ip);
    var (store2, a2) := TouchDim(p, cs.apiKey, prefix, store1, a.r.apiKey);
    var t2, t3 := TouchOf(p, cs.apiKey, prefix, a.r.apiKey), TouchOf(p, cs.tenant, prefix, a.r.tenant);
    Regroup(TouchOf(p, cs.ip, prefix, a.r.ip), t2, t3, rest);
    OnlyOwnTouches(a, w, prefix, key);
    TouchStep(k, p, cs.ip, prefix, store, a.r.ip, t2 + (t3 + rest));
    TouchStep(k, p, cs.apiKey, prefix, store1, a.r.apiKey, t3 + rest);
    TouchStep(k, p, cs.tenant, prefix, store2, a.r.tenant, rest);
  }

  lemma PinnedEvent(cs: Configs, prefix: string, a: Act, rest: seq<Touch>, w: Which, key: string)
    requires PinnedAct(a, w, key)
    ensures
      var d := Pick(a.r, w);
      EventsOf(prefix + key, TouchesOf(cs, prefix, a) + rest)
      == if Evaluated(d) then [EventOf(a.Peek?, PickConfig(cs, w), d)] + EventsOf(prefix + key, rest)
         else EventsOf(prefix + key, rest)
  {
    var k, p := prefix + key, a.Peek?;
    var t2, t3 := TouchOf(p, cs.apiKey, prefix, a.r.apiKey), TouchOf(p, cs.tenant, prefix, a.r.tenant);
    Regroup(TouchOf(p, cs.ip, prefix, a.r.ip), t2, t3, rest);
    OnlyOwnTouches(a, w, prefix, key);
    EventStep(k, p, cs.ip, prefix, a.r.ip, t2 + (t3 + rest));
    EventStep(k, p, cs.apiKey, prefix, a.r.apiKey, t3 + rest);
    EventStep(k, p, cs.tenant, prefix, a.r.tenant, rest);
  }

  // ---------------------------------------------------------------- whole runs

  /** Dimension `w` answered exactly the requests it was evaluated for. */
  ghost predicate Agree(answers: seq<Answers>, rs: seq<Request>, w: Which) {
    && |answers| == |rs|
    && forall i | 0 <= i < |rs| :: PickAnswer(answers[i], w).Some? == Evaluated(Pick(rs[i], w))
  }

  lemma AgreeCons(a: Answers, answers: seq<Answers>, r: Request, rs: seq<Request>, w: Which)
    requires Agree(answers, rs, w) && PickAnswer(a, w).Some? == Evaluated(Pick(r, w))
    ensures Agree([a] + answers, [r] + rs, w)
  {
  }

  /** The answers of a pinned dimension are, in order, the answers of Redis to its key. */
  lemma {:induction false} PinnedAnswers(
      cs: Configs, prefix: string, store: Store, acts: seq<Act>, w: Which, key: string)
    requires Pinned(acts, w, key)
    ensures
      var answers := RunAll(cs, prefix, store, acts);
      && Agree(answers, Asked(acts), w)
      && DimAnswers(w, answers) == AnswersTo(prefix + key, store, AllTouches(cs, prefix, acts))
    decreases acts
  {
    if acts != [] {
      var (store', a) := Perform(cs, prefix, store, acts[0]);
      var rest := RunAll(cs, prefix, store', acts[1..]);
      assert PinnedAct(acts[0], w, key);
      PinnedStep(cs, prefix, store, acts[0], AllTouches(cs, prefix, acts[1..]), w, key);
      PinnedAnswers(cs, prefix, store', acts[1..], w, key);
      if acts[0].Ask? {
        AgreeCons(a, rest, acts[0].r, Asked(acts[1..]), w);
        assert ([a] + rest)[1..] == rest;
      } else {
        assert RunAll(cs, prefix, store, acts) == rest && Asked(acts) == Asked(acts[1..]);
      }
    }
  }

  lemma {:induction false} PinnedEvents(cs: Configs, prefix: string, acts: seq<Act>, w: Which, key: string)
    requires Pinned(acts, w, key)
    ensures EventsOf(prefix + key, AllTouches(cs, prefix, acts)) == DimEvents(PickConfig(cs, w), w, acts)
  {
    if acts != [] {
      var rest := AllTouches(cs, prefix, acts[1..]);
      assert AllTouches(cs, prefix, acts) == TouchesOf(cs, prefix, acts[0]) + rest;
      assert PinnedAct(acts[0], w, key);
      PinnedEvent(cs, prefix, acts[0], rest, w, key);
      PinnedEvents(cs, prefix, acts[1..], w, key);
    }
  }

  lemma TimesCons(c: Event, cs: seq<Event>)
    ensures TimesOf([c] + cs) == [c.now] + TimesOf(cs)
  {
  }

  lemma {:induction false} FirstCheck(cfg: Config, d: Dim, rest: seq<Event>)
    ensures TimesOf(ChecksOf([EventOf(false, cfg, d)] + rest)) == [d.now] + TimesOf(ChecksOf(rest))
  {
    var check := EventOf(false, cfg, d);
    assert ([check] + rest)[1..] == rest;
    TimesCons(check, ChecksOf(rest));
  }

  lemma {:induction false} FirstPeek(cfg: Config, d: Dim, rest: seq<Event>)
    ensures ChecksOf([EventOf(true, cfg, d)] + rest) == ChecksOf(rest)
  {
    var peek := EventOf(true, cfg, d);
    assert ([peek] + rest)[1..] == rest;
    assert [] + ChecksOf(rest) == ChecksOf(rest);
  }

  lemma {:induction false} DimChecks(cfg: Config, w: Which, acts: seq<Act>)
    ensures Uses(DimEvents(cfg, w, acts), cfg)
    ensures TimesOf(ChecksOf(DimEvents(cfg, w, acts))) == DimTimes(w, Asked(acts))
  {
    if acts != [] {
      DimChecks(cfg, w, acts[1..]);
      var rest := DimEvents(cfg, w, acts[1..]);
      if acts[0].Ask? {
        FirstCheck(cfg, Pick(acts[0].r, w), rest);
        assert Asked(acts) == [acts[0].r] + Asked(acts[1..]);
      } else {
        FirstPeek(cfg, Pick(acts[0].r, w), rest);
        assert Asked(acts) == Asked(acts[1..]);
      }
    }
  }

  // ---------------------------------------------------------------- windows

  lemma {:induction false} AllowedByDimension(answers: seq<Answers>, rs: seq<Request>, w: Which)
    requires Agree(answers, rs, w)
    ensures AllowedCount(answers) <= Skipped(w, rs) + Admitted(DimAnswers(w, answers))
    ensures |DimAnswers(w, answers)| == |DimTimes(w, rs)|
  {
    if answers != [] {
      AllowedByDimension(answers[1..], rs[1..], w);
      var d := DimAnswers(w, answers);
      if Evaluated(Pick(rs[0], w)) {
        assert d[1..] == DimAnswers(w, answers[1..]);
      }
    }
  }

  lemma {:induction false} DimAnswersSplit(w: Which, xs: seq<Answers>, ys: seq<Answers>)
    ensures DimAnswers(w, xs + ys) == DimAnswers(w, xs) + DimAnswers(w, ys)
  {
    if xs == [] {
      assert xs + ys == ys;
    } else {
      assert (xs + ys)[1..] == xs[1..] + ys;
      DimAnswersSplit(w, xs[1..], ys);
    }
  }

  lemma {:induction false} DimTimesSplit(w: Which, xs: seq<Request>, ys: seq<Request>)
    ensures DimTimes(w, xs + ys) == DimTimes(w, xs) + DimTimes(w, ys)
  {
    if xs == [] {
      assert xs + ys == ys;
    } else {
      assert (xs + ys)[1..] == xs[1..] + ys;
      DimTimesSplit(w, xs[1..], ys);
    }
  }

  ghost predicate Ordered(w: Which, rs: seq<Request>) {
    forall i, j | 0 <= i <= j < |rs| :: Pick(rs[i], w).now <= Pick(rs[j], w).now
  }

  lemma {:induction false} TimesInRange(w: Which, rs: seq<Request>, lo: int, hi: int)
    requires forall r <- rs :: lo <= Pick(r, w).now <= hi
    ensures forall t <- DimTimes(w, rs) :: lo <= t <= hi
  {
    if rs != [] {
      assert rs[0] in rs;
      TimesInRange(w, rs[1..], lo, hi);
    }
  }

  /** In a stretch of a bounded dimension, admissions fit the stretch of time. */
  lemma {:induction false} StretchBound(
      cfg: Config, dim: seq<Answer>, times: seq<int>, a: nat, b: nat, lo: int, hi: int)
    requires Bounded(cfg, dim, times) && cfg.rate >= 0 && cfg.capacity >= 0
    requires a <= b <= |dim| && lo <= hi && forall k | a <= k < b :: lo <= times[k] <= hi
    ensures Within(cfg, Admitted(dim[a..b]), hi - lo)
    decreases b
  {
    if a == b {
      GainGrows(cfg.rate, 0, hi - lo);
      assert Gain(cfg.rate, 0) == 0.0;
    } else if dim[b - 1].allowed {
      assert Within(cfg, Admitted(dim[a..b - 1 + 1]), times[b - 1] - times[a]);
      GainGrows(cfg.rate, times[b - 1] - times[a], hi - lo);
    } else {
      StretchBound(cfg, dim, times, a, b - 1, lo, hi);
      assert dim[a..b] == dim[a..b - 1] + [dim[b - 1]];
      AdmittedSnoc(dim[a..b - 1], dim[b - 1]);
    }
  }

  lemma {:induction false} AdmittedSnoc(xs: seq<Answer>, x: Answer)
    ensures Admitted(xs + [x]) == Admitted(xs) + (if x.allowed then 1 else 0)
  {
    if xs == [] {
      assert [x][1..] == [];
    } else {
      assert (xs + [x])[1..] == xs[1..] + [x];
      AdmittedSnoc(xs[1..], x);
    }
  }

  /** `n` admissions fit one capacity, the refill of `elapsed`, and `unseen` requests. */
  ghost predicate WithinBut(cfg: Config, unseen: nat, n: nat, elapsed: int) {
    n <= unseen || Within(cfg, n - unseen, elapsed)
  }

  /**
   Between any two requests: overall admissions fit one capacity, the refill of the elapsed time, and
   the requests that dimension `w` let pass unseen.
   */
  ghost predicate AllowedBounded(cfg: Config, w: Which, answers: seq<Answers>, rs: seq<Request>) {
    && |answers| == |rs|
    && forall i, j | 0 <= i <= j < |rs| ::
         WithinBut(cfg, Skipped(w, rs[i..j + 1]), AllowedCount(answers[i..j + 1]), Pick(rs[j], w).now - Pick(rs[i], w).now)
  }

  lemma Middle<T>(x: seq<T>, y: seq<T>, z: seq<T>)
    ensures (x + (y + z))[|x|..|x| + |y|] == y
  {
  }

  lemma {:induction false} AnswersStretch(answers: seq<Answers>, w: Which, i: nat, j: nat)
    requires i <= j <= |answers|
    ensures
      var a := |DimAnswers(w, answers[..i])|;
      var b := a + |DimAnswers(w, answers[i..j])|;
      b <= |DimAnswers(w, answers)| && DimAnswers(w, answers)[a..b] == DimAnswers(w, answers[i..j])
  {
    var x, y, z := answers[..i], answers[i..j], answers[j..];
    assert answers == x + (y + z);
    DimAnswersSplit(w, x, y + z);
    DimAnswersSplit(w, y, z);
    Middle(DimAnswers(w, x), DimAnswers(w, y), DimAnswers(w, z));
  }

  lemma {:induction false} TimesStretch(rs: seq<Request>, w: Which, i: nat, j: nat)
    requires i <= j <= |rs|
    ensures
      var a := |DimTimes(w, rs[..i])|;
      var b := a + |DimTimes(w, rs[i..j])|;
      b <= |DimTimes(w, rs)| && DimTimes(w, rs)[a..b] == DimTimes(w, rs[i..j])
  {
    var x, y, z := rs[..i], rs[i..j], rs[j..];
    assert rs == x + (y + z);
    DimTimesSplit(w, x, y + z);
    DimTimesSplit(w, y, z);
    Middle(DimTimes(w, x), DimTimes(w, y), DimTimes(w, z));
  }

  /** The stretch of the dimension that belongs to a window of requests. */
  lemma {:induction false} Stretch(answers: seq<Answers>, rs: seq<Request>, w: Which, i: nat, j: nat)
    returns (a: nat, b: nat)
    requires Agree(answers, rs, w) && i <= j <= |rs|
    ensures a <= b <= |DimAnswers(w, answers)| && b <= |DimTimes(w, rs)|
    ensures DimAnswers(w, answers)[a..b] == DimAnswers(w, answers[i..j])
    ensures DimTimes(w, rs)[a..b] == DimTimes(w, rs[i..j])
  {
    AllowedByDimension(answers[..i], rs[..i], w);
    AllowedByDimension(answers[i..j], rs[i..j], w);
    AnswersStretch(answers, w, i, j);
    TimesStretch(rs, w, i, j);
    a := |DimTimes(w, rs[..i])|;
    b := a + |DimTimes(w, rs[i..j])|;
  }

  lemma PartInRange(times: seq<int>, a: nat, b: nat, lo: int, hi: int)
    requires a <= b <= |times| && forall t <- times[a..b] :: lo <= t <= hi
    ensures forall k | a <= k < b :: lo <= times[k] <= hi
  {
    forall k | a <= k < b
      ensures lo <= times[k] <= hi
    {
      assert times[k] == times[a..b][k - a];
      assert times[a..b][k - a] in times[a..b];
    }
  }

  lemma {:induction false} WindowByDimension(
      cfg: Config, answers: seq<Answers>, rs: seq<Request>, w: Which, i: nat, j: nat)
    requires Agree(answers, rs, w) && Ordered(w, rs) && i <= j < |rs| && cfg.rate >= 0 && cfg.capacity >= 0
    requires Bounded(cfg, DimAnswers(w, answers), DimTimes(w, rs))
    ensures
      var elapsed := Pick(rs[j], w).now - Pick(rs[i], w).now;
      WithinBut(cfg, Skipped(w, rs[i..j + 1]), AllowedCount(answers[i..j + 1]), elapsed)
  {
    var lo, hi := Pick(rs[i], w).now, Pick(rs[j], w).now;
    var window, dim, times := answers[i..j + 1], DimAnswers(w, answers), DimTimes(w, rs);
    var a, b := Stretch(answers, rs, w, i, j + 1);
    TimesInRange(w, rs[i..j + 1], lo, hi);
    PartInRange(times, a, b, lo, hi);
    StretchBound(cfg, dim, times, a, b, lo, hi);
    AllowedByDimension(window, rs[i..j + 1], w);
    FewerFit(cfg, Skipped(w, rs[i..j + 1]), AllowedCount(window), Admitted(DimAnswers(w, window)), hi - lo);
  }

  lemma {:induction false} BoundedByDimension(cfg: Config, answers: seq<Answers>, rs: seq<Request>, w: Which)
    requires Agree(answers, rs, w) && Ordered(w, rs) && cfg.rate >= 0 && cfg.capacity >= 0
    requires Bounded(cfg, DimAnswers(w, answers), DimTimes(w, rs))
    ensures AllowedBounded(cfg, w, answers, rs)
  {
    forall i, j | 0 <= i <= j < |rs|
      ensures WithinBut(cfg, Skipped(w, rs[i..j + 1]), AllowedCount(answers[i..j + 1]),
                        Pick(rs[j], w).now - Pick(rs[i], w).now)
    {
      WindowByDimension(cfg, answers, rs, w, i, j);
    }
  }

  lemma FewerFit(cfg: Config, unseen: nat, n: nat, admitted: nat, elapsed: int)
    requires n <= unseen + admitted && Within(cfg, admitted, elapsed)
    ensures WithinBut(cfg, unseen, n, elapsed)
  {
  }

  lemma PinnedBound(cs: Configs, prefix: string, acts: seq<Act>, w: Which, key: string, now: int, srv: int)
    requires TtlRefills(PickConfig(cs, w))
    requires Pinned(acts, w, key) && Monotone(DimEvents(PickConfig(cs, w), w, acts), now, srv)
    ensures Bounded(PickConfig(cs, w), AnswersTo(prefix + key, map[], AllTouches(cs, prefix, acts)), DimTimes(w, Asked(acts)))
  {
    var cfg := PickConfig(cs, w);
    PinnedEvents(cs, prefix, acts, w, key);
    DimChecks(cfg, w, acts);
    DeployedBound(cfg, prefix + key, AllTouches(cs, prefix, acts), now, srv);
  }

  /**
   Overall admissions obey every pinned dimension's own bound, hence the smallest of them, in every
   window, but for the requests that the dimension has no key for or whose check fails; whatever the
   other dimensions do, and however often the status is read.
   */
  lemma CompositeBound(cs: Configs, prefix: string, acts: seq<Act>, w: Which, key: string, now: int, srv: int)
    requires TtlRefills(PickConfig(cs, w)) && PickConfig(cs, w).capacity >= 0
    requires Pinned(acts, w, key) && Monotone(DimEvents(PickConfig(cs, w), w, acts), now, srv)
    requires Ordered(w, Asked(acts))
    ensures AllowedBounded(PickConfig(cs, w), w, RunAll(cs, prefix, map[], acts), Asked(acts))
  {
    var answers, rs := RunAll(cs, prefix, map[], acts), Asked(acts);
    PinnedAnswers(cs, prefix, map[], acts, w, key);
    PinnedBound(cs, prefix, acts, w, key, now, srv);
    BoundedByDimension(PickConfig(cs, w), answers, rs, w);
  }

  /**
   Since key functions are called without the request, all clients share one IP bucket and one API
   key bucket: with default options the whole gateway admits, in any window, at most 500 requests
   plus 100 per second, and at most 1000 plus 60 per second, but for those whose check failed.
   */
  lemma DefaultsLimitTheWholeGateway(
      prefix: string, acts: seq<Act>, tenants: seq<Option<string>>, now: int, srv: int)
    requires |tenants| == |acts| && forall n | 0 <= n < |acts| :: DefaultKeyed(acts[n].r, tenants[n])
    requires Monotone(DimEvents(DEFAULT_CONFIGS.ip, IP, acts), now, srv) && Ordered(IP, Asked(acts))
    requires Monotone(DimEvents(DEFAULT_CONFIGS.apiKey, APIKey, acts), now, srv) && Ordered(APIKey, Asked(acts))
    ensures AllowedBounded(Config(100, 500, 60_000), IP, RunAll(DEFAULT_CONFIGS, prefix, map[], acts), Asked(acts))
    ensures AllowedBounded(Config(60, 1000, 60_000), APIKey, RunAll(DEFAULT_CONFIGS, prefix, map[], acts), Asked(acts))
  {
    forall a <- acts
      ensures PinnedAct(a, IP, DefaultIPKey(None)) && PinnedAct(a, APIKey, DefaultAPIKeyKey(None))
    {
      var n :| 0 <= n < |acts| && acts[n] == a;
      DefaultKeysNeverCollide(None, None, tenants[n], None, "");
    }
    CompositeBound(DEFAULT_CONFIGS, prefix, acts, IP, DefaultIPKey(None), now, srv);
    CompositeBound(DEFAULT_CONFIGS, prefix, acts, APIKey, DefaultAPIKeyKey(None), now, srv);
  }
}
