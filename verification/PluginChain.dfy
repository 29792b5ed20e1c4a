/** The plugin chain: hooks run in order over a request, a response or an error. */
module PluginChain {
  import opened Common

  type Fields = map<string, string>

  datatype Request = Request(verb: string, url: string, headers: Fields, body: string, tenantID: string, apiKey: string)

  /** A value in the Context: a string, as metadata brings them, or anything else. */
  datatype Value = Text(text: string) | Opaque(id: int)

  type Context = Option<map<string, Value>>

  datatype Input = Input(request: Request, context: Context)

  datatype Output = Output(status: int, headers: Fields, body: string, metadata: Option<Fields>, proceed: bool)

  /** What a hook returns: nil, an output, or an error. */
  datatype Answer<+T> = Nothing | Gives(out: T) | Fails(error: string)

  datatype ErrorInput = ErrorInput(code: string, message: string)

  datatype ErrorOutput = ErrorOutput(status: int, headers: Fields, body: string, metadata: Option<Fields>)

  /**
   Hooks are arbitrary functions; a plugin may lack any of them. A hook gets its argument by reference,
   so it returns what it has made of it beside its answer.
   */
  datatype Plugin = Plugin(
    onRequest: Option<Input -> (Input, Answer<Output>)>,
    onResponse: Option<Output -> (Output, Answer<Output>)>,
    onError: Option<ErrorInput -> (ErrorInput, Answer<ErrorOutput>)>)

  // ---------------------------------------------------------------- responses

  /** How a chain of response hooks ends; the halt is kept apart from the output's own Continue flag. */
  datatype ResponseEnd = Done(current: Output) | Halted(out: Output) | Broken(error: string)

  function Respond(ps: seq<Plugin>, input: Output): ResponseEnd
    decreases ps
  {
    if ps == [] then Done(input)
    else if ps[0].onResponse.None? then Respond(ps[1..], input)
    else
      var (seen, a) := ps[0].onResponse.value(input);
      match a
      case Nothing => Respond(ps[1..], seen)
      case Fails(e) => Broken(e)
      case Gives(out) => if out.proceed then Respond(ps[1..], out) else Halted(out)
  }

  /** What the caller sees of it. */
  function Visible(e: ResponseEnd): Result<Output, string> {
    match e case Done(o) => Ok(o) case Halted(o) => Ok(o) case Broken(err) => Err(err)
  }

  /** Running P++Q is running P, and then Q on its result unless P halted or failed. */
  lemma {:induction false} ResponseChainsCompose(ps: seq<Plugin>, qs: seq<Plugin>, input: Output)
    ensures Respond(ps + qs, input)
         == if Respond(ps, input).Done? then Respond(qs, Respond(ps, input).current) else Respond(ps, input)
    decreases ps
  {
    if ps == [] {
      assert ps + qs == qs;
    } else {
      assert (ps + qs)[0] == ps[0] && (ps + qs)[1..] == ps[1..] + qs;
      if ps[0].onResponse.None? {
        ResponseChainsCompose(ps[1..], qs, input);
      } else {
        var (seen, a) := ps[0].onResponse.value(input);
        ResponseChainsCompose(ps[1..], qs, if a.Gives? then a.out else seen);
      }
    }
  }

  /** The hook of `p`, if it has one, lets the chain go on from `before` with `after`. */
  ghost predicate HandsOn(p: Plugin, before: Output, after: Output) {
    match p.onResponse
    case None => after == before
    case Some(hook) =>
      var (seen, a) := hook(before);
      (a == Nothing && after == seen) || (a == Gives(after) && after.proceed)
  }

  /**
   The responses that the hooks see: each makes the next one of the one before it. The caller gets the
   last of them, or what the hook answers at which they end.
   */
  lemma {:induction false} ResponsePath(ps: seq<Plugin>, input: Output) returns (vs: seq<Output>)
    ensures 1 <= |vs| <= |ps| + 1 && vs[0] == input
    ensures forall i | 0 <= i < |vs| - 1 :: HandsOn(ps[i], vs[i], vs[i + 1])
    ensures |vs| == |ps| + 1 ==> Visible(Respond(ps, input)) == Ok(vs[|ps|])
    ensures |vs| <= |ps| ==>
      && ps[|vs| - 1].onResponse.Some?
      && match ps[|vs| - 1].onResponse.value(vs[|vs| - 1]).1
         case Nothing => false
         case Gives(out) => !out.proceed && Visible(Respond(ps, input)) == Ok(out)
         case Fails(e) => Visible(Respond(ps, input)) == Err(e)
    decreases ps
  {
    vs := [input];
    if ps != [] {
      if ps[0].onResponse.None? {
        var rest := ResponsePath(ps[1..], input);
        vs := [input] + rest;
      } else {
        var (seen, a) := ps[0].onResponse.value(input);
        if !Stops(a) {
          var rest := ResponsePath(ps[1..], if a.Gives? then a.out else seen);
          vs := [input] + rest;
        }
      }
    }
  }

  /** Its silent response hooks leave the Continue flag set. */
  ghost predicate KeepsFlag(p: Plugin) {
    p.onResponse.Some? ==> forall o: Output ::
      o.proceed && p.onResponse.value(o).1.Nothing? ==> p.onResponse.value(o).0.proceed
  }

  lemma {:induction false} OutputsProceed(ps: seq<Plugin>, input: Output)
    requires input.proceed && forall p <- ps :: KeepsFlag(p)
    ensures var r := Respond(ps, input);
      (r.Done? ==> r.current.proceed) && (r.Halted? ==> !r.out.proceed)
    decreases ps
  {
    if ps != [] {
      assert KeepsFlag(ps[0]);
      if ps[0].onResponse.None? {
        OutputsProceed(ps[1..], input);
      } else {
        var (seen, a) := ps[0].onResponse.value(input);
        if !Stops(a) {
          OutputsProceed(ps[1..], if a.Gives? then a.out else seen);
        }
      }
    }
  }

  /** The Continue flag of the result says whether the chain halted. */
  ghost predicate TellsHalting(ps: seq<Plugin>, input: Output) {
    (forall p <- ps :: KeepsFlag(p)) && Visible(Respond(ps, input)).Ok? ==>
      (Respond(ps, input).Halted? <==> !Visible(Respond(ps, input)).value.proceed)
  }

  /** It does for every chain of plugins that keep the flag exactly when the response came in with it set. */
  lemma FlagTellsHalting(input: Output)
    ensures (forall ps :: TellsHalting(ps, input)) <==> input.proceed
  {
    if input.proceed {
      forall ps
        ensures TellsHalting(ps, input)
      {
        if forall p <- ps :: KeepsFlag(p) {
          OutputsProceed(ps, input);
        }
      }
    } else {
      assert !TellsHalting([], input);
    }
  }

  // ---------------------------------------------------------------- requests

  /** Whether an answer ends the chain. */
  predicate Stops(a: Answer<Output>) {
    a.Fails? || (a.Gives? && !a.out.proceed)
  }

  predicate Continues(a: Answer<Output>) {
    a.Gives? && a.out.proceed
  }

  function Texts(metadata: Fields): map<string, Value> {
    map k | k in metadata :: Text(metadata[k])
  }

  function Overlay(context: Context, a: Answer<Output>): Context {
    if !Continues(a) then context
    else
      var base := if context.Some? then context.value else map[];
      Some(if a.out.metadata.Some? then base + Texts(a.out.metadata.value) else base)
  }

  /** What the chain makes of its input, and the answers of the hooks that run, in order. */
  datatype Trace = Trace(input: Input, answers: seq<Answer<Output>>)

  function Execute(ps: seq<Plugin>, input: Input): Trace
    decreases ps
  {
    if ps == [] then Trace(input, [])
    else if ps[0].onRequest.None? then Execute(ps[1..], input)
    else
      var (seen, a) := ps[0].onRequest.value(input);
      if Stops(a) then Trace(seen, [a])
      else
        var rest := Execute(ps[1..], seen.(context := Overlay(seen.context, a)));
        Trace(rest.input, [a] + rest.answers)
  }

  /** The chain's result is its last answer; a last answer of nil hides the outputs before it. */
  function ResultOf(answers: seq<Answer<Output>>): Result<Option<Output>, string> {
    if answers == [] then Ok(None)
    else
      match answers[|answers| - 1]
      case Nothing => Ok(None)
      case Gives(out) => Ok(Some(out))
      case Fails(e) => Err(e)
  }

  function ContextAfter(context: Context, answers: seq<Answer<Output>>): Context
    decreases answers
  {
    if answers == [] then context else ContextAfter(Overlay(context, answers[0]), answers[1..])
  }

  class PluginInput {
    var request: Request
    var context: Context

    constructor (input: Input)
      ensures Snapshot() == input
    {
      request := input.request;
      context := input.context;
    }

    function Snapshot(): Input
      reads this
    {
      Input(request, context)
    }
  }

  class Chain {
    var plugins: seq<Plugin>

    constructor ()
      ensures plugins == []
    {
      plugins := [];
    }

    method Add(plugin: Plugin)
      modifies this
      ensures plugins == old(plugins) + [plugin]
    {
      plugins := plugins + [plugin];
    }

    /** The hooks share `current`, whose Context the loop fills in place. */
    method ExecuteOnRequest(current: PluginInput) returns (r: Result<Option<Output>, string>)
      modifies current
      ensures
        var t := Execute(plugins, old(current.Snapshot()));
        r == ResultOf(t.answers) && current.Snapshot() == t.input
    {
      var output: Option<Output> := None;
      ghost var past: seq<Answer<Output>> := [];
      ghost var all := Execute(plugins, current.Snapshot());
      for i := 0 to |plugins|
        invariant all == After(past, Execute(plugins[i..], current.Snapshot()))
        invariant ResultOf(past) == Ok(output)
      {
        assert plugins[i..][1..] == plugins[i + 1..];
        if plugins[i].onRequest.None? {
          continue;
        }
        var (seen, a) := plugins[i].onRequest.value(current.Snapshot());
        current.request, current.context := seen.request, seen.context;
        OneMore(past, a, Execute(plugins[i + 1..], seen.(context := Overlay(seen.context, a))));
        past := past + [a];
        match a
        case Fails(e) => return Err(e);
        case Nothing => output := None;
        case Gives(out) => {
          output := Some(out);
          if !out.proceed {
            return Ok(output);
          }
          if current.context.None? {
            current.context := Some(map[]);
          }
          if out.metadata.Some? {
            CopyInto(current, out.metadata.value);
          }
        }
      }
      assert past + [] == past;
      r := Ok(output);
    }

    /** `for k, v := range output.Metadata`, in any order. */
    method CopyInto(current: PluginInput, metadata: Fields)
      requires current.context.Some?
      modifies current`context
      ensures current.context == Some(old(current.context).value + Texts(metadata))
    {
      var left := metadata.Keys;
      ghost var before := current.context.value;
      while left != {}
        invariant left <= metadata.Keys && current.context.Some?
        invariant current.context.value == before + (map k | k in metadata && k !in left :: Text(metadata[k]))
        decreases |left|
      {
        var k :| k in left;
        current.context := Some(current.context.value[k := Text(metadata[k])]);
        left := left - {k};
      }
      assert (map k | k in metadata && k !in left :: Text(metadata[k])) == Texts(metadata);
    }

    method ExecuteOnResponse(input: Output) returns (r: Result<Output, string>)
      ensures r == Visible(Respond(plugins, input))
    {
      var current := input;
      for i := 0 to |plugins|
        invariant Respond(plugins, input) == Respond(plugins[i..], current)
      {
        assert plugins[i..][1..] == plugins[i + 1..];
        if plugins[i].onResponse.None? {
          continue;
        }
        var (seen, a) := plugins[i].onResponse.value(current);
        current := seen;
        match a
        case Fails(e) => return Err(e);
        case Nothing =>
        case Gives(out) => {
          if !out.proceed {
            return Ok(out);
          }
          current := out;
        }
      }
      r := Ok(current);
    }

    /** The first hook that answers decides. */
    method ExecuteOnError(input: ErrorInput) returns (r: Result<Option<ErrorOutput>, string>)
      ensures r ==
        match FirstAnswer(plugins, input).1
        case Nothing => Ok(None)
        case Gives(out) => Ok(Some(out))
        case Fails(e) => Err(e)
    {
      var seen := input;
      for i := 0 to |plugins|
        invariant FirstAnswer(plugins, input) == FirstAnswer(plugins[i..], seen)
      {
        assert plugins[i..][1..] == plugins[i + 1..];
        if plugins[i].onError.None? {
          continue;
        }
        var (left, a) := plugins[i].onError.value(seen);
        seen := left;
        match a
        case Fails(e) => return Err(e);
        case Gives(out) => return Ok(Some(out));
        case Nothing =>
      }
      r := Ok(None);
    }
  }

  // ---------------------------------------------------------------- errors

  /** What the error hooks make of their input, and the first answer that is not nil. */
  function FirstAnswer(ps: seq<Plugin>, input: ErrorInput): (ErrorInput, Answer<ErrorOutput>)
    decreases ps
  {
    if ps == [] then (input, Nothing)
    else if ps[0].onError.None? then FirstAnswer(ps[1..], input)
    else
      var (seen, a) := ps[0].onError.value(input);
      if a.Nothing? then FirstAnswer(ps[1..], seen) else (seen, a)
  }

  /** P++Q answers as P does, or as Q on the input P left if P is silent. */
  lemma {:induction false} ErrorChainsCompose(ps: seq<Plugin>, qs: seq<Plugin>, input: ErrorInput)
    ensures
      var (seen, a) := FirstAnswer(ps, input);
      FirstAnswer(ps + qs, input) == if a.Nothing? then FirstAnswer(qs, seen) else (seen, a)
    decreases ps
  {
    if ps == [] {
      assert ps + qs == qs;
    } else {
      assert (ps + qs)[0] == ps[0] && (ps + qs)[1..] == ps[1..] + qs;
      if ps[0].onError.None? {
        ErrorChainsCompose(ps[1..], qs, input);
      } else {
        ErrorChainsCompose(ps[1..], qs, ps[0].onError.value(input).0);
      }
    }
  }

  /**
   The inputs that the error hooks see: each silent one leaves the next. They end at the first hook that
   answers, with an output or an error, and that is the answer; or behind the last plugin without one.
   */
  lemma {:induction false} ErrorPath(ps: seq<Plugin>, input: ErrorInput) returns (vs: seq<ErrorInput>)
    ensures 1 <= |vs| <= |ps| + 1 && vs[0] == input
    ensures forall i | 0 <= i < |vs| - 1 ::
      if ps[i].onError.None? then vs[i + 1] == vs[i] else ps[i].onError.value(vs[i]) == (vs[i + 1], Nothing)
    ensures
      if |vs| == |ps| + 1 then FirstAnswer(ps, input) == (vs[|ps|], Nothing)
      else
        && ps[|vs| - 1].onError.Some?
        && FirstAnswer(ps, input) == ps[|vs| - 1].onError.value(vs[|vs| - 1])
        && (FirstAnswer(ps, input).1.Gives? || FirstAnswer(ps, input).1.Fails?)
    decreases ps
  {
    vs := [input];
    if ps != [] {
      if ps[0].onError.None? {
        var rest := ErrorPath(ps[1..], input);
        vs := [input] + rest;
      } else {
        var (seen, a) := ps[0].onError.value(input);
        if a.Nothing? {
          var rest := ErrorPath(ps[1..], seen);
          vs := [input] + rest;
        }
      }
    }
  }

  // ---------------------------------------------------------------- the request side, run by run

  lemma {:induction false} ContextSnoc(context: Context, answers: seq<Answer<Output>>, a: Answer<Output>)
    ensures ContextAfter(context, answers + [a]) == Overlay(ContextAfter(context, answers), a)
    decreases answers
  {
    if answers == [] {
      assert [a][1..] == [];
    } else {
      assert (answers + [a])[1..] == answers[1..] + [a];
      ContextSnoc(Overlay(context, answers[0]), answers[1..], a);
    }
  }

  /** A trace with the answers that came before it. */
  function After(past: seq<Answer<Output>>, t: Trace): Trace {
    Trace(t.input, past + t.answers)
  }

  lemma OneMore(past: seq<Answer<Output>>, a: Answer<Output>, rest: Trace)
    ensures After(past, Trace(rest.input, [a] + rest.answers)) == After(past + [a], rest)
    ensures (past + [a]) + [] == past + [a]
  {
    assert past + ([a] + rest.answers) == (past + [a]) + rest.answers;
  }

  predicate Stopped(answers: seq<Answer<Output>>) {
    answers != [] && Stops(answers[|answers| - 1])
  }

  /** Only the last answer can be a stop: no hook runs after the first halt or error. */
  lemma {:induction false} NothingRunsAfterAStop(ps: seq<Plugin>, input: Input)
    ensures var answers := Execute(ps, input).answers;
      |answers| <= |ps| && forall i | 0 <= i < |answers| - 1 :: !Stops(answers[i])
    decreases ps
  {
    if ps != [] {
      if ps[0].onRequest.None? {
        NothingRunsAfterAStop(ps[1..], input);
      } else {
        var (seen, a) := ps[0].onRequest.value(input);
        NothingRunsAfterAStop(ps[1..], seen.(context := Overlay(seen.context, a)));
      }
    }
  }

  /** P++Q runs P, and unless P stopped runs Q on the input P left. */
  lemma {:induction false} RequestChainsCompose(ps: seq<Plugin>, qs: seq<Plugin>, input: Input)
    ensures
      var first := Execute(ps, input);
      Execute(ps + qs, input) == if Stopped(first.answers) then first else After(first.answers, Execute(qs, first.input))
    decreases ps
  {
    if ps == [] {
      assert ps + qs == qs;
      assert [] + Execute(qs, input).answers == Execute(qs, input).answers;
    } else {
      assert (ps + qs)[0] == ps[0] && (ps + qs)[1..] == ps[1..] + qs;
      if ps[0].onRequest.None? {
        RequestChainsCompose(ps[1..], qs, input);
      } else {
        var (seen, a) := ps[0].onRequest.value(input);
        if !Stops(a) {
          var next := seen.(context := Overlay(seen.context, a));
          RequestChainsCompose(ps[1..], qs, next);
          StoppedBehind(a, Execute(ps[1..], next), Execute(qs, Execute(ps[1..], next).input));
        }
      }
    }
  }

  lemma StoppedBehind(a: Answer<Output>, first: Trace, second: Trace)
    requires !Stops(a)
    ensures Stopped([a] + first.answers) == Stopped(first.answers)
    ensures [a] + (first.answers + second.answers) == ([a] + first.answers) + second.answers
  {
  }

  /** `after` is the Context `before` with the values of `metadata` in place of its own. */
  ghost predicate Overlaid(before: Context, metadata: Option<Fields>, after: Context) {
    && after.Some?
    && forall k: string ::
         if metadata.Some? && k in metadata.value then k in after.value && after.value[k] == Text(metadata.value[k])
         else (
           && (k in after.value <==> before.Some? && k in before.value)
           && (k in after.value ==> after.value[k] == before.value[k]))
  }

  /** The request hook of `p`, if it has one, lets the chain go on from `before` with `after`. */
  ghost predicate LetsPass(p: Plugin, before: Input, after: Input) {
    match p.onRequest
    case None => after == before
    case Some(hook) =>
      var (seen, a) := hook(before);
      || (a == Nothing && after == seen)
      || (a.Gives? && a.out.proceed && after.request == seen.request && Overlaid(seen.context, a.out.metadata, after.context))
  }

  /** What the caller gets for the answer of the last hook that ran. */
  ghost predicate IsResult(a: Answer<Output>, r: Result<Option<Output>, string>) {
    && (a == Nothing ==> r == Ok(None))
    && (forall out :: a == Gives(out) ==> r == Ok(Some(out)))
    && (forall e :: a == Fails(e) ==> r == Err(e))
  }

  /** No hook behind `k`. */
  predicate LastHook(ps: seq<Plugin>, k: int) {
    0 <= k < |ps| && ps[k].onRequest.Some? && forall j | k < j < |ps| :: ps[j].onRequest.None?
  }

  /** The inputs `vs` that the hooks see: each makes the next one of the one before it. */
  ghost predicate InputsSeen(ps: seq<Plugin>, input: Input, vs: seq<Input>) {
    && 1 <= |vs| <= |ps| + 1 && vs[0] == input
    && forall i | 0 <= i < |vs| - 1 :: LetsPass(ps[i], vs[i], vs[i + 1])
  }

  /** They end at a hook that halts or fails, or behind the last plugin; the last hook that ran gives the result. */
  ghost predicate EndsWith(ps: seq<Plugin>, vs: seq<Input>, t: Trace)
    requires 1 <= |vs| <= |ps| + 1
  {
    if |vs| == |ps| + 1 then
      && t.input == vs[|ps|]
      && (forall k | LastHook(ps, k) :: IsResult(ps[k].onRequest.value(vs[k]).1, ResultOf(t.answers)))
      && ((forall p <- ps :: p.onRequest.None?) ==> ResultOf(t.answers) == Ok(None))
    else
      && ps[|vs| - 1].onRequest.Some?
      && var (seen, a) := ps[|vs| - 1].onRequest.value(vs[|vs| - 1]);
         Stops(a) && t.input == seen && IsResult(a, ResultOf(t.answers))
  }

  lemma EndsAlike(ps: seq<Plugin>, input: Input, vs: seq<Input>, t: Trace, u: Trace)
    requires ps != [] && 1 <= |vs| <= |ps| && EndsWith(ps[1..], vs, t)
    requires u.input == t.input
    requires (exists p <- ps[1..] :: p.onRequest.Some?) ==> ResultOf(u.answers) == ResultOf(t.answers)
    requires (forall p <- ps[1..] :: p.onRequest.None?) ==>
      if ps[0].onRequest.Some? then IsResult(ps[0].onRequest.value(input).1, ResultOf(u.answers)) else ResultOf(u.answers) == Ok(None)
    ensures EndsWith(ps, [input] + vs, u)
  {
    var ws := [input] + vs;
    assert forall i | 0 <= i < |ps| - 1 :: ps[1..][i] == ps[i + 1] && ps[i + 1] in ps[1..];
    if |ws| == |ps| + 1 {
      forall k | LastHook(ps, k)
        ensures IsResult(ps[k].onRequest.value(ws[k]).1, ResultOf(u.answers))
      {
        if k > 0 {
          assert LastHook(ps[1..], k - 1);
        }
      }
    }
  }

  /**
   The request chain as a path: the inputs that the hooks see, from the first one to where the chain
   halts, fails or ends, and its result.
   */
  lemma {:induction false} RequestPath(ps: seq<Plugin>, input: Input) returns (vs: seq<Input>)
    ensures InputsSeen(ps, input, vs) && EndsWith(ps, vs, Execute(ps, input))
    decreases ps
  {
    vs := [input];
    if ps != [] {
      if ps[0].onRequest.None? {
        var rest := RequestPath(ps[1..], input);
        AnswersBehind(Nothing, ps[1..], input);
        EndsAlike(ps, input, rest, Execute(ps[1..], input), Execute(ps, input));
        vs := [input] + rest;
      } else {
        var (seen, a) := ps[0].onRequest.value(input);
        if !Stops(a) {
          var next := seen.(context := Overlay(seen.context, a));
          var rest := RequestPath(ps[1..], next);
          AnswersBehind(a, ps[1..], next);
          assert [a] + [] == [a];
          EndsAlike(ps, input, rest, Execute(ps[1..], next), Execute(ps, input));
          assert LetsPass(ps[0], input, next);
          vs := [input] + rest;
        }
      }
    }
  }

  /** An answer before those of a chain matters only if the chain has no hook. */
  lemma {:induction false} AnswersBehind(a: Answer<Output>, ps: seq<Plugin>, input: Input)
    ensures
      var answers := Execute(ps, input).answers;
      && (answers == [] <==> forall p <- ps :: p.onRequest.None?)
      && (answers != [] ==> ResultOf([a] + answers) == ResultOf(answers))
      && IsResult(a, ResultOf([a]))
    decreases ps
  {
    if ps != [] {
      assert ps == [ps[0]] + ps[1..];
      if ps[0].onRequest.None? {
        AnswersBehind(a, ps[1..], input);
      }
    }
  }

  /** The request hook leaves the Context it is given. */
  ghost predicate LeavesContext(p: Plugin) {
    p.onRequest.Some? ==> forall i: Input :: p.onRequest.value(i).0.context == i.context
  }

  /** With such hooks the final Context is the initial one, overlaid left to right by the answers. */
  lemma {:induction false} ContextIsOverlaid(ps: seq<Plugin>, input: Input)
    requires forall p <- ps :: LeavesContext(p)
    ensures Execute(ps, input).input.context == ContextAfter(input.context, Execute(ps, input).answers)
    decreases ps
  {
    if ps != [] {
      assert LeavesContext(ps[0]);
      if ps[0].onRequest.None? {
        ContextIsOverlaid(ps[1..], input);
      } else {
        var (seen, a) := ps[0].onRequest.value(input);
        if Stops(a) {
          assert [a][1..] == [];
        } else {
          var next := seen.(context := Overlay(seen.context, a));
          ContextIsOverlaid(ps[1..], next);
          assert ([a] + Execute(ps[1..], next).answers)[1..] == Execute(ps[1..], next).answers;
        }
      }
    }
  }

  /** The last continuing answer that carries a key, -1 if none does. */
  function LastWith(answers: seq<Answer<Output>>, key: string): (i: int)
    ensures -1 <= i < |answers|
    ensures i >= 0 ==> Continues(answers[i]) && answers[i].out.metadata.Some? && key in answers[i].out.metadata.value
    ensures forall j | i < j < |answers| ::
      !(Continues(answers[j]) && answers[j].out.metadata.Some? && key in answers[j].out.metadata.value)
  {
    if answers == [] then -1
    else
      var n := |answers| - 1;
      var a := answers[n];
      if Continues(a) && a.out.metadata.Some? && key in a.out.metadata.value then n else LastWith(answers[..n], key)
  }

  lemma {:induction false} OverlaidByKey(context: Context, answers: seq<Answer<Output>>, key: string)
    ensures
      var after := ContextAfter(context, answers);
      var i := LastWith(answers, key);
      if i >= 0 then after.Some? && key in after.value && after.value[key] == Text(answers[i].out.metadata.value[key])
      else (
        && (after.Some? && key in after.value <==> context.Some? && key in context.value)
        && (context.Some? && key in context.value ==> after.Some? && after.value[key] == context.value[key]))
    decreases |answers|
  {
    if answers != [] {
      var n := |answers| - 1;
      assert answers == answers[..n] + [answers[n]];
      ContextSnoc(context, answers[..n], answers[n]);
      OverlaidByKey(context, answers[..n], key);
    }
  }

  /**
   The final Context of such hooks, key by key: the value of the last continuing output whose metadata
   has the key, or else the initial one. Halting and failing answers contribute nothing.
   */
  lemma ContextByKey(ps: seq<Plugin>, input: Input, key: string)
    requires forall p <- ps :: LeavesContext(p)
    ensures
      var t := Execute(ps, input);
      var context, after := input.context, t.input.context;
      var i := LastWith(t.answers, key);
      if i >= 0 then after.Some? && key in after.value && after.value[key] == Text(t.answers[i].out.metadata.value[key])
      else (
        && (after.Some? && key in after.value <==> context.Some? && key in context.value)
        && (context.Some? && key in context.value ==> after.Some? && after.value[key] == context.value[key]))
  {
    ContextIsOverlaid(ps, input);
    OverlaidByKey(input.context, Execute(ps, input).answers, key);
  }

  /** A final hook that answers nil discards the output of every continuing hook before it. */
  lemma TrailingNilHidesOutput(ps: seq<Plugin>, p: Plugin, input: Input)
    requires !Stopped(Execute(ps, input).answers) && p.onRequest.Some?
    requires p.onRequest.value(Execute(ps, input).input).1 == Nothing
    ensures ResultOf(Execute(ps + [p], input).answers) == Ok(None)
  {
    RequestChainsCompose(ps, [p], input);
    assert [p][1..] == [];
  }
}
