/** The chat handler: quota check, upstream call, recording, in that order, streaming or not. */
module ChatHandler {
  import opened Common
  import opened Text
  import opened UsageLedger
  import opened UsageConservation
  import opened LLMClient
  import opened StreamUsage
  import Quota

  /**
   The upstream call: a request with retries, or a single one whose answer is read chunk by chunk.
   `connected` says whether the single request was answered 200; `fallback` is the estimate used
   when the stream tells no usage.
   */
  datatype Mode = Plain(env: Env) | Streaming(connected: bool, body: seq<Read>, usageOf: Decoder, fallback: Usage)

  /**
   A request past parsing: the estimate, the tenant's quota, whether reading the usage fails, the
   upstream call, and the environment of the recording of the usage it answers with.
   */
  datatype Chat = Chat(
    estimate: int, quotaDaily: int, readFails: bool, date: string,
    mode: Mode, doneBefore: bool, doneAfter: bool, now: int, later: int,
    recording: Recording)

  datatype World = World(ledger: Ledger, breaker: Breaker.Breaker)

  datatype Verdict = OverQuota | ShortCircuited | Failed | Answered

  datatype Served = Served(verdict: Verdict, sent: nat)

  datatype Setup = Setup(variant: Breaker.Variant, config: Breaker.Config, maxRetries: nat)

  predicate WithinQuota(l: Ledger, q: Chat) {
    !q.readFails && Quota.Passes(Quota.AsWritten, l.rows, q.recording.record.tenant, q.date, q.quotaDaily, q.estimate)
  }

  predicate Ready(q: Chat) {
    |q.recording.attempts| == MAX_ATTEMPTS && (q.mode.Streaming? ==> Fits(q.mode.body))
  }

  /** Whether the function inside the breaker returns nil, and how many requests it sends. */
  predicate CallSucceeds(maxRetries: nat, m: Mode)
    requires maxRetries >= 1
  {
    match m
    case Plain(env) => Loop(env, maxRetries, 0).result.Ok?
    case Streaming(connected, body, _, _) => connected && Completes(body)
  }

  function Requests(maxRetries: nat, m: Mode): nat
    requires maxRetries >= 1
  {
    match m case Plain(env) => Loop(env, maxRetries, 0).sent case Streaming(_, _, _, _) => 1
  }

  /** What is recorded: the usage of the answer, or that found in the stream, or the estimate. */
  function RecordingOf(q: Chat): Recording {
    match q.mode
    case Plain(_) => q.recording
    case Streaming(_, body, usageOf, fallback) =>
      var found := LastQualifying(usageOf, LinesOf(Buffered(Delivered(body))));
      q.recording.(record := q.recording.record.(usage := if found.Some? then found.value else fallback))
  }

  function Serve(c: Codec, z: Setup, w: World, q: Chat): (World, Served)
    requires z.maxRetries >= 1 && Ready(q)
  {
    var (b, admitted) := Breaker.Allow(z.variant, z.config, w.breaker, q.now);
    if !WithinQuota(w.ledger, q) then (w, Served(OverQuota, 0))
    else if !admitted then (w.(breaker := b), Served(ShortCircuited, 0))
    else
      var good := !q.doneBefore && !q.doneAfter && CallSucceeds(z.maxRetries, q.mode);
      var ledger := if good then Apply(c, w.ledger, Submit(RecordingOf(q))) else w.ledger;
      (World(ledger, Breaker.Outcome(z.variant, z.config, Breaker.Count(b), good, q.later)),
       Served(if good then Answered else Failed, if q.doneBefore then 0 else Requests(z.maxRetries, q.mode)))
  }

  /** The status the caller sees; a stream's headers are sent before anything can fail. */
  function Status(q: Chat, v: Verdict): int {
    match v
    case OverQuota => 403
    case Answered => 200
    case _ => if q.mode.Streaming? then 200 else 502
  }

  class LLMHandler {
    const store: UsageStore
    const client: LLMClient

    constructor (store: UsageStore, client: LLMClient)
      ensures this.store == store && this.client == client
    {
      this.store := store;
      this.client := client;
    }

    function View(): World
      reads store, client.circuit
    {
      World(store.State(), client.circuit.Snapshot())
    }

    function Settings(): Setup {
      Setup(client.circuit.variant, client.circuit.config, client.maxRetries)
    }

    method ChatCompletion(c: Codec, q: Chat) returns (served: Served, status: int)
      requires client.maxRetries >= 1 && Ready(q)
      modifies store, client.circuit
      ensures (View(), served) == Serve(c, Settings(), old(View()), q) && status == Status(q, served.verdict)
    {
      var checked :=
        Quota.CheckQuota(store, q.recording.record.tenant, q.date, q.estimate, q.quotaDaily, q.readFails);
      if checked.Err? {
        return Served(OverQuota, 0), 403;
      }
      if q.mode.Streaming? {
        served := StreamChat(c, q);
        status := 200;
      } else {
        served, status := NonStreamChat(c, q);
      }
    }

    method NonStreamChat(c: Codec, q: Chat) returns (served: Served, status: int)
      requires client.maxRetries >= 1 && Ready(q) && q.mode.Plain? && WithinQuota(store.State(), q)
      modifies store, client.circuit
      ensures (View(), served) == Serve(c, Settings(), old(View()), q) && status == Status(q, served.verdict)
    {
      var response, sent := client.ChatCompletion(q.mode.env, q.doneBefore, q.doneAfter, q.now, q.later);
      NeverRejects(q.mode.env, client.maxRetries);
      if response == Success {
        store.RecordUsage(c, q.recording);
      }
      var verdict :=
        if response == Success then Answered else if response == Wrapped(Error.Rejected) then ShortCircuited else Failed;
      served, status := Served(verdict, sent), HandlerStatus(response);
    }

    /** One request in the breaker, its chunks buffered; then the usage is looked for and recorded. */
    method StreamChat(c: Codec, q: Chat) returns (served: Served)
      requires client.maxRetries >= 1 && Ready(q) && q.mode.Streaming? && WithinQuota(store.State(), q)
      modifies store, client.circuit
      ensures (View(), served) == Serve(c, Settings(), old(View()), q)
    {
      var admitted := client.circuit.BeginCall(q.now);
      if !admitted {
        return Served(ShortCircuited, 0);
      }
      if q.doneBefore {
        client.circuit.EndCall(true, q.later);
        return Served(Failed, 0);
      }
      var ok, streamBuffer := false, "";
      if q.mode.connected {
        ok, streamBuffer := StreamChunks(q.mode.body);
      }
      ok := ok && !q.doneAfter;
      client.circuit.EndCall(!ok, q.later);
      if !ok {
        return Served(Failed, 1);
      }
      var found := ExtractUsage(q.mode.usageOf, streamBuffer);
      var usage := if found.Some? then found.value else q.mode.fallback;
      store.RecordUsage(c, q.recording.(record := q.recording.record.(usage := usage)));
      served := Served(Answered, 1);
    }
  }

  /** Only the breaker rejects; the retry loop never answers so. */
  lemma NeverRejects(env: Env, maxRetries: nat)
    requires maxRetries >= 1
    ensures Loop(env, maxRetries, 0).result != Err(Error.Rejected)
  {
    LoopEnds(env, maxRetries, 0);
  }

  // ---------------------------------------------------------------- which requests are answered

  /** The upstream's side: the last answer is a 200 that parses, or the stream is read to its end. */
  ghost predicate UpstreamAnswers(m: Mode, sent: nat) {
    match m
    case Plain(env) => sent >= 1 && env.upstream(sent - 1) == Reply(200, true)
    case Streaming(connected, body, _, _) => connected && ReadToTheEnd(body)
  }

  /** The breaker after a call of its own with one outcome. */
  function AfterCall(z: Setup, b: Breaker.Breaker, q: Chat, ok: bool): Breaker.Breaker {
    Breaker.Outcome(z.variant, z.config, Breaker.Count(Breaker.Allow(z.variant, z.config, b, q.now).0), ok, q.later)
  }

  /** The day's first row could be read and leaves room for the estimate. */
  ghost predicate HasRoom(l: Ledger, q: Chat) {
    !q.readFails && Quota.RoomByFirstRow(l.rows, q.recording.record.tenant, q.date, q.quotaDaily, q.estimate)
  }

  /**
   Each verdict by its cause: over quota, rejected by the breaker, and otherwise answered exactly if the
   context lives throughout and the upstream answers. What the caller sees of it, and what stays
   untouched: a request over quota changes nothing, and only an answer changes the ledger.
   */
  lemma VerdictsMean(c: Codec, z: Setup, w: World, q: Chat)
    requires z.maxRetries >= 1 && Ready(q)
    ensures
      var (w', served) := Serve(c, z, w, q);
      var status := Status(q, served.verdict);
      var passed := HasRoom(w.ledger, q) && Breaker.Allow(z.variant, z.config, w.breaker, q.now).1;
      && (served.verdict == OverQuota <==> !HasRoom(w.ledger, q))
      && (served.verdict == ShortCircuited <==> HasRoom(w.ledger, q) && !passed)
      && (served.verdict == Answered
          <==> passed && !q.doneBefore && !q.doneAfter && UpstreamAnswers(q.mode, served.sent))
      && (if passed && !q.doneBefore then served.sent >= 1 && (q.mode.Streaming? ==> served.sent == 1) else served.sent == 0)
      && (status == 403 <==> served.verdict == OverQuota)
      && (status == 200 <==> served.verdict == Answered || (q.mode.Streaming? && served.verdict != OverQuota))
      && status in {200, 403, 502}
      && (served.verdict == OverQuota ==> w' == w)
      && (passed ==> w'.breaker == AfterCall(z, w.breaker, q, served.verdict == Answered))
      && (served.verdict != Answered ==> w'.ledger == w.ledger)
  {
    Quota.PassesMeans(w.ledger.rows, q.recording.record.tenant, q.date, q.quotaDaily, q.estimate);
    match q.mode
    case Plain(env) => LoopAnswers(env, z.maxRetries);
    case Streaming(_, body, _, _) => CompletesMeans(body);
  }

  // ---------------------------------------------------------------- whole runs

  function ServeAll(c: Codec, z: Setup, w: World, qs: seq<Chat>): (World, seq<Served>)
    requires z.maxRetries >= 1 && forall q <- qs :: Ready(q)
    decreases qs
  {
    if qs == [] then (w, [])
    else
      var (w1, first) := Serve(c, z, w, qs[0]);
      var (w2, rest) := ServeAll(c, z, w1, qs[1..]);
      (w2, [first] + rest)
  }

  /** The usage that an answer tells: a plain one its own, a stream that of its last usage line, else the estimate. */
  ghost predicate Tells(q: Chat, u: Usage) {
    match q.mode
    case Plain(_) => u == q.recording.record.usage
    case Streaming(_, body, usageOf, fallback) =>
      var lines := LinesOf(Buffered(Delivered(body)));
      LastTold(usageOf, lines, u) || (NothingTold(usageOf, lines) && u == fallback)
  }

  /** One usage is told, and it is the one recorded for the request's tenant and model. */
  lemma RecordedAsTold(q: Chat, u: Usage)
    ensures Tells(q, u) <==> u == RecordingOf(q).record.usage
    ensures RecordingOf(q) == q.recording.(record := q.recording.record.(usage := RecordingOf(q).record.usage))
  {
    if q.mode.Streaming? {
      LastQualifyingMeans(q.mode.usageOf, LinesOf(Buffered(Delivered(q.mode.body))), u);
    }
  }

  ghost function Told(q: Chat): (u: Usage)
    ensures Tells(q, u)
  {
    RecordedAsTold(q, RecordingOf(q).record.usage);
    var u :| Tells(q, u);
    u
  }

  /** The usage to bill for a request: what an answer tells, unless that has no tokens or its recording is lost. */
  ghost function Bill(c: Codec, z: Setup, w: World, q: Chat, tenant: nat, model: string, kind: Kind): int
    requires z.maxRetries >= 1 && Ready(q)
  {
    if Serve(c, z, w, q).1.verdict == Answered && Told(q).total != 0 && !Lost(w.ledger, q.recording)
    then Share(q.recording.record.(usage := Told(q)), tenant, model, kind) else 0
  }

  ghost function Billed(c: Codec, z: Setup, w: World, qs: seq<Chat>, tenant: nat, model: string, kind: Kind): int
    requires z.maxRetries >= 1 && forall q <- qs :: Ready(q)
    decreases qs
  {
    if qs == [] then 0
    else
      Bill(c, z, w, qs[0], tenant, model, kind)
      + Billed(c, z, Serve(c, z, w, qs[0]).0, qs[1..], tenant, model, kind)
  }

  lemma ServeBills(c: Codec, z: Setup, w: World, q: Chat, tenant: nat, model: string, kind: Kind)
    requires z.maxRetries >= 1 && Ready(q) && Faithful(c) && Sound(w.ledger)
    ensures
      var w' := Serve(c, z, w, q).0;
      && Sound(w'.ledger)
      && Balance(c, w'.ledger, tenant, model, kind)
         == Balance(c, w.ledger, tenant, model, kind) + Bill(c, z, w, q, tenant, model, kind)
  {
    RecordedAsTold(q, Told(q));
    LostByRecord(w.ledger, q);
    ApplyBills(c, w.ledger, RecordingOf(q), tenant, model, kind);
  }

  /** Whether a recording is lost does not depend on its usage. */
  lemma LostByRecord(l: Ledger, q: Chat)
    ensures Lost(l, RecordingOf(q)) <==> Lost(l, q.recording)
  {
    RecordedAsTold(q, Told(q));
    var r := RecordingOf(q);
    forall i | 0 <= i < |r.attempts|
      ensures Succeeds(l.rows, r.record, r.attempts[i]) <==> Succeeds(l.rows, q.recording.record, q.recording.attempts[i])
    {
    }
  }

  lemma ApplyBills(c: Codec, l: Ledger, r: Recording, tenant: nat, model: string, kind: Kind)
    requires |r.attempts| == MAX_ATTEMPTS && Faithful(c) && Sound(l)
    ensures Sound(Apply(c, l, Submit(r)))
    ensures Balance(c, Apply(c, l, Submit(r)), tenant, model, kind)
         == Balance(c, l, tenant, model, kind)
            + (if r.record.usage.total != 0 && !Lost(l, r) then Share(r.record, tenant, model, kind) else 0)
  {
    if r.record.usage.total != 0 {
      RecordingConserves(c, l, r, tenant, model, kind);
    }
  }

  /**
   Every answered request is billed once for the usage its answer tells, in the table or as a dead
   letter, and nothing else is; what is lost is only a recording whose attempts and append all fail.
   */
  lemma {:induction false} AnswersAreBilled(c: Codec, z: Setup, w: World, qs: seq<Chat>, tenant: nat,
      model: string, kind: Kind)
    requires z.maxRetries >= 1 && Faithful(c) && Sound(w.ledger)
    requires forall q <- qs :: Ready(q)
    ensures
      var w' := ServeAll(c, z, w, qs).0;
      && Sound(w'.ledger)
      && Balance(c, w'.ledger, tenant, model, kind)
         == Balance(c, w.ledger, tenant, model, kind) + Billed(c, z, w, qs, tenant, model, kind)
    decreases qs
  {
    if qs != [] {
      ServeBills(c, z, w, qs[0], tenant, model, kind);
      AnswersAreBilled(c, z, Serve(c, z, w, qs[0]).0, qs[1..], tenant, model, kind);
    }
  }

  function Sent(served: seq<Served>): nat {
    if served == [] then 0 else served[0].sent + Sent(served[1..])
  }

  predicate IsCall(s: Served) {
    s.verdict == Failed || s.verdict == Answered
  }

  /** Requests that the quota check and the breaker let through. */
  function Calls(served: seq<Served>): nat {
    if served == [] then 0 else (if IsCall(served[0]) then 1 else 0) + Calls(served[1..])
  }

  lemma ServeCalls(c: Codec, z: Setup, w: World, q: Chat)
    requires z.maxRetries >= 1 && Ready(q)
    ensures
      var (w', served) := Serve(c, z, w, q);
      && w'.breaker.totalRequests == w.breaker.totalRequests + (if IsCall(served) then 1 else 0)
      && served.sent <= if IsCall(served) then z.maxRetries else 0
  {
    if q.mode.Plain? {
      LoopEnds(q.mode.env, z.maxRetries, 0);
    }
  }

  /**
   With either breaker in any state, each request that the quota check and the breaker let through is
   one call of the breaker and at most maxRetries upstream requests; any other costs neither.
   */
  lemma {:induction false} CallsAreCounted(c: Codec, z: Setup, w: World, qs: seq<Chat>)
    requires z.maxRetries >= 1 && forall q <- qs :: Ready(q)
    ensures
      var (w', served) := ServeAll(c, z, w, qs);
      && w'.breaker.totalRequests == w.breaker.totalRequests + Calls(served)
      && Sent(served) <= Calls(served) * z.maxRetries
    decreases qs
  {
    if qs != [] {
      var (w1, first) := Serve(c, z, w, qs[0]);
      ServeCalls(c, z, w, qs[0]);
      CallsAreCounted(c, z, w1, qs[1..]);
      var rest := ServeAll(c, z, w1, qs[1..]).1;
      assert ([first] + rest)[1..] == rest;
      SentAddsUp(first, rest, z.maxRetries);
    }
  }

  lemma SentAddsUp(first: Served, rest: seq<Served>, maxRetries: nat)
    requires first.sent <= if IsCall(first) then maxRetries else 0
    requires Sent(rest) <= Calls(rest) * maxRetries
    ensures Sent([first] + rest) <= Calls([first] + rest) * maxRetries
  {
    assert ([first] + rest)[1..] == rest;
    assert (1 + Calls(rest)) * maxRetries == maxRetries + Calls(rest) * maxRetries;
  }

  /** On the breaker as written nobody is rejected, and each call is one failure or one success. */
  lemma {:induction false} EveryCallHasAnOutcome(c: Codec, z: Setup, w: World, qs: seq<Chat>)
    requires z.maxRetries >= 1 && forall q <- qs :: Ready(q)
    requires z.variant == Breaker.AsWritten && w.breaker.state == Breaker.Closed
    ensures
      var (w', served) := ServeAll(c, z, w, qs);
      && w'.breaker.state == Breaker.Closed
      && w'.breaker.failures + w'.breaker.successes == w.breaker.failures + w.breaker.successes + Calls(served)
      && forall s <- served :: s.verdict != ShortCircuited
    decreases qs
  {
    if qs != [] {
      var (w1, first) := Serve(c, z, w, qs[0]);
      OneOutcomeEach(z.config, w.breaker, qs[0].now, qs[0].later, first.verdict == Answered);
      EveryCallHasAnOutcome(c, z, w1, qs[1..]);
      var rest := ServeAll(c, z, w1, qs[1..]).1;
      assert ([first] + rest)[1..] == rest;
    }
  }
}
