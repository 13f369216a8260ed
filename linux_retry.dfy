/** `LinuxService.fixCodeAndRerun`: up to ten rounds of asking the model to fix
    the failing code, running the fix, and asking for an avoid-error prompt.
    The model, the code executor, the JSON parser and the md5-keyed code table
    are parameters; log lines and progress events are not modelled. */
module LinuxRetry {
  import opened JavaText
  import opened CodeExtraction

  const MaxAttempts := 10
  const FixRequest := "代码执行遇到错误,请修复,并输出修复后的代码 "

  datatype ChatMessage = ChatMessage(role: string, content: JString)

  /** What `executeCode` reports for one run of a script. */
  datatype ProcessResult = ProcessResult(output: JString, stdErr: JString)

  /** A row saved to `ef_generate_code_avoid_error_prompt`: the request sent for
      the avoid-error prompt, and the prompt that came back. */
  datatype AvoidRow = AvoidRow(request: seq<ChatMessage>, prompt: JString)

  /** The outside world of one call: the stored code row for the md5 (read by
      every `genManaimCode`), the model, the JSON parser, the executor and the
      rendered `code_fix_prompt.txt`. The executor's Throws is an exception of
      `LinuxClient.executeMainmCode`, or the null result whose `getStdErr()` throws. */
  datatype Env = Env(
    stored: JString,
    model: seq<ChatMessage> -> Generation,
    parse: string -> JsonParse,
    execute: string -> Completion<ProcessResult>,
    fixPrompt: string)

  /** The user message asking for a fix of the given error text. */
  function FixAsk(request: string, stdErr: JString): ChatMessage
  {
    ChatMessage("user", Some(Concat(request, stdErr)))
  }

  /** `genAvoidPromptCode`: the exception of `generate` is caught and gives null;
      reading the reply (line 185) is outside the `try`, so a reply without a
      candidate throws out of the loop. */
  function AvoidPrompt(gen: Generation): (r: Completion<JString>)
    ensures r.Throws? <==> gen.NoCandidate?
    ensures gen.Generated? ==> r == Returns(gen.text)
    ensures gen.GenerateFailed? ==> r == Returns(None)
  {
    match gen
    case GenerateFailed => Returns(None)
    case NoCandidate => Throws
    case Generated(text) => Returns(text)
  }

  /** The message that hands the model back the code it produced (or its avoid prompt). */
  function ModelSays(content: JString): ChatMessage
  {
    ChatMessage("model", content)
  }

  /** The four steps one attempt takes: `genManaimCode` on a request,
      `genAvoidPromptCode` on a request, `executeCode`, and the code-fix prompt. */
  datatype Ops = Ops(
    generate: seq<ChatMessage> -> Completion<JString>,
    avoid: seq<ChatMessage> -> Completion<JString>,
    execute: string -> Completion<ProcessResult>,
    fixPrompt: string,
    fixRequest: string)

  /** The steps as the service performs them against its environment. */
  function OpsOf(env: Env): Ops
  {
    Ops(request => GenManaimCode(env.stored, env.model(request), env.parse),
        request => AvoidPrompt(env.model(request)),
        env.execute, env.fixPrompt, FixRequest)
  }

  /** The five messages of one full round: the failing code and its error, the
      new `code`, the code-fix prompt, and the avoid-error prompt that came back. */
  function Round(prevCode: JString, prevErr: JString, code: string, fixRequest: string, fixPrompt: string, avoid: JString): seq<ChatMessage>
  {
    [ModelSays(prevCode), FixAsk(fixRequest, prevErr), ModelSays(Some(code)), ChatMessage("user", Some(fixPrompt)), ModelSays(avoid)]
  }

  /** What the attempts from some point on add: how the call ends (Throws: an
      exception escaping `genManaimCode`, `executeCode` or `genAvoidPromptCode`),
      the scripts handed to the executor, the rows saved, the messages appended
      and the requests handed to `genManaimCode`. */
  datatype Tail = Tail(
    outcome: Completion<Option<ProcessResult>>,
    runs: seq<string>,
    rows: seq<AvoidRow>,
    appended: seq<ChatMessage>,
    fixRequests: seq<seq<ChatMessage>>)

  /** The two messages that hand the model the code it produced and the code-fix prompt. */
  function FixReport(c: string, fixPrompt: string): seq<ChatMessage>
  {
    [ModelSays(Some(c)), ChatMessage("user", Some(fixPrompt))]
  }

  /** The loop from iteration `attempt` on: at most one script run per
      remaining attempt, and a saved row for every run but a last one. */
  function FixFrom(attempt: nat, messages: seq<ChatMessage>, code: JString, stdErr: JString,
                   last: Option<ProcessResult>, ops: Ops): Tail
    decreases MaxAttempts + 1 - attempt, 1
  {
    if attempt > MaxAttempts then Tail(Returns(last), [], [], [], [])
    else FixAt(attempt, messages, code, stdErr, last, ops)
  }

  /** Iteration `attempt` and those after it. */
  function FixAt(attempt: nat, messages: seq<ChatMessage>, code: JString, stdErr: JString,
                 last: Option<ProcessResult>, ops: Ops): Tail
    requires attempt <= MaxAttempts
    decreases MaxAttempts + 1 - attempt, 0
  {
      var ask := [ModelSays(code), FixAsk(ops.fixRequest, stdErr)];
      match ops.generate(messages + ask)
      case Throws => Tail(Throws, [], [], ask, [messages + ask])
      case Returns(None) => Tail(Returns(None), [], [], ask, [messages + ask])
      case Returns(Some(c)) =>
        match ops.execute(c)
        case Throws => Tail(Throws, [c], [], ask, [messages + ask])
        case Returns(r) =>
          var avoidRequest := messages + ask + FixReport(c, ops.fixPrompt);
          match ops.avoid(avoidRequest)
          case Throws => Tail(Throws, [c], [], ask + FixReport(c, ops.fixPrompt), [messages + ask])
          case Returns(avoid) =>
            var round := Round(code, stdErr, c, ops.fixRequest, ops.fixPrompt, avoid);
            var row := AvoidRow(avoidRequest, avoid);
            if IsNotBlank(r.output) then Tail(Returns(Some(r)), [c], [row], round, [messages + ask])
            else
              var t := FixFrom(attempt + 1, messages + round, Some(c), r.stdErr, Some(r), ops);
              Tail(t.outcome, [c] + t.runs, [row] + t.rows, round + t.appended, [messages + ask] + t.fixRequests)
  }

  /** The whole call. */
  function FixCodeAndRerunSpec(messages: seq<ChatMessage>, code: JString, stdErr: JString, env: Env): Tail
  {
    FixFrom(1, messages, code, stdErr, None, OpsOf(env))
  }

  /** The request object whose message list the caller shares with the loop. */
  class ChatRequest {
    var messages: seq<ChatMessage>

    constructor (messages: seq<ChatMessage>)
      ensures this.messages == messages
    {
      this.messages := messages;
    }
  }

  /** `whole` is what `runs`, `rows` and `appended` are followed by `rest`, ending as `rest` does. */
  predicate Extends(whole: Tail, runs: seq<string>, rows: seq<AvoidRow>, appended: seq<ChatMessage>, rest: Tail)
  {
    whole.outcome == rest.outcome && whole.runs == runs + rest.runs
    && whole.rows == rows + rest.rows && whole.appended == appended + rest.appended
  }

  lemma AppendAssoc<T>(a: seq<T>, b: seq<T>, c: seq<T>)
    ensures a + b + c == a + (b + c)
  {
  }

  lemma AppendEmpty<T>(a: seq<T>)
    ensures [] + a == a && a + [] == a
  {
  }

  /** `whole` is exactly `runs`, `rows` and `appended`, ending with `outcome`. */
  predicate Ends(whole: Tail, runs: seq<string>, rows: seq<AvoidRow>, appended: seq<ChatMessage>,
                 outcome: Completion<Option<ProcessResult>>)
  {
    whole.outcome == outcome && whole.runs == runs && whole.rows == rows && whole.appended == appended
  }

  lemma ExtendsTrans(whole: Tail, runs: seq<string>, rows: seq<AvoidRow>, appended: seq<ChatMessage>, mid: Tail,
                     runs': seq<string>, rows': seq<AvoidRow>, appended': seq<ChatMessage>, rest: Tail)
    requires Extends(whole, runs, rows, appended, mid) && Extends(mid, runs', rows', appended', rest)
    ensures Extends(whole, runs + runs', rows + rows', appended + appended', rest)
  {
    AppendAssoc(runs, runs', rest.runs);
    AppendAssoc(rows, rows', rest.rows);
    AppendAssoc(appended, appended', rest.appended);
  }

  /** A call that started from `before` and left `after` in the request did what `t` says. */
  predicate Performed(t: Tail, before: seq<ChatMessage>, after: seq<ChatMessage>,
                      outcome: Completion<Option<ProcessResult>>, runs: seq<string>, rows: seq<AvoidRow>)
  {
    outcome == t.outcome && after == before + t.appended && runs == t.runs && rows == t.rows
  }

  /** The retry loop itself: it appends to the caller's message list in place. */
  method FixCodeAndRerun(request: ChatRequest, code: JString, stdErr: JString, env: Env)
    returns (outcome: Completion<Option<ProcessResult>>, runs: seq<string>, saved: seq<AvoidRow>)
    modifies request
    ensures Performed(FixCodeAndRerunSpec(old(request.messages), code, stdErr, env),
                      old(request.messages), request.messages, outcome, runs, saved)
  {
    ghost var ops := OpsOf(env);
    ghost var spec := FixCodeAndRerunSpec(request.messages, code, stdErr, env);
    ghost var done: seq<ChatMessage> := [];
    ghost var start := request.messages;
    var currentCode, currentErr, last := code, stdErr, None;
    runs, saved := [], [];
    LoopStarts(spec, start);
    for attempt := 1 to MaxAttempts + 1
      invariant request.messages == start + done
      invariant Extends(spec, runs, saved, done, FixFrom(attempt, request.messages, currentCode, currentErr, last, ops))
    {
      var stop;
      stop, currentCode, currentErr, last, runs, saved, done := Iterate(request, attempt, currentCode, currentErr, last, env, spec, start, runs, saved, done);
      if stop.Some? {
        return stop.value, runs, saved;
      }
    }
    LoopEnds(spec, start, runs, saved, done, request.messages, currentCode, currentErr, last, ops);
    outcome := Returns(last);
  }

  /** An iteration of the loop, as the loop's invariant sees it. */
  method Iterate(request: ChatRequest, attempt: nat, code: JString, stdErr: JString, last: Option<ProcessResult>, env: Env,
                 ghost spec: Tail, ghost start: seq<ChatMessage>, runs: seq<string>, saved: seq<AvoidRow>, ghost done: seq<ChatMessage>)
    returns (stop: Option<Completion<Option<ProcessResult>>>, code': JString, stdErr': JString, last': Option<ProcessResult>,
             runs': seq<string>, saved': seq<AvoidRow>, ghost done': seq<ChatMessage>)
    requires attempt <= MaxAttempts
    requires request.messages == start + done
    requires Extends(spec, runs, saved, done, FixFrom(attempt, request.messages, code, stdErr, last, OpsOf(env)))
    modifies request
    ensures stop.Some? ==> Performed(spec, start, request.messages, stop.value, runs', saved')
    ensures stop.None? ==> request.messages == start + done'
    ensures stop.None? ==> Extends(spec, runs', saved', done', FixFrom(attempt + 1, request.messages, code', stdErr', last', OpsOf(env)))
  {
    ghost var t := FixFrom(attempt, request.messages, code, stdErr, last, OpsOf(env));
    var run, row;
    ghost var added;
    stop, code', stdErr', last', run, row, added := Attempt(request, attempt, code, stdErr, last, env);
    if stop.Some? {
      StopEnds(spec, start, runs, saved, done, t, run, row, added, stop.value);
    } else {
      Advance(spec, start, runs, saved, done, t, run, row, added, FixFrom(attempt + 1, request.messages, code', stdErr', last', OpsOf(env)));
    }
    runs', saved', done' := runs + run, saved + row, done + added;
  }

  /** Before the first iteration nothing is done and everything is still to come. */
  lemma LoopStarts(spec: Tail, start: seq<ChatMessage>)
    ensures Extends(spec, [], [], [], spec) && start == start + []
  {
    AppendEmpty(spec.runs);
    AppendEmpty(spec.rows);
    AppendEmpty(spec.appended);
    AppendEmpty(start);
  }

  /** An iteration that ends the call completes what the loop has done so far. */
  lemma StopEnds(spec: Tail, start: seq<ChatMessage>, runs: seq<string>, rows: seq<AvoidRow>, done: seq<ChatMessage>,
                 t: Tail, run: seq<string>, row: seq<AvoidRow>, added: seq<ChatMessage>,
                 outcome: Completion<Option<ProcessResult>>)
    requires Extends(spec, runs, rows, done, t) && Ends(t, run, row, added, outcome)
    ensures Performed(spec, start, start + done + added, outcome, runs + run, rows + row)
  {
    AppendAssoc(start, done, added);
  }

  /** An iteration that does not end the call leaves the loop's invariant for the next one. */
  lemma Advance(spec: Tail, start: seq<ChatMessage>, runs: seq<string>, rows: seq<AvoidRow>, done: seq<ChatMessage>,
                t: Tail, run: seq<string>, row: seq<AvoidRow>, added: seq<ChatMessage>, rest: Tail)
    requires Extends(spec, runs, rows, done, t) && Extends(t, run, row, added, rest)
    ensures Extends(spec, runs + run, rows + row, done + added, rest)
    ensures start + done + added == start + (done + added)
  {
    ExtendsTrans(spec, runs, rows, done, t, run, row, added, rest);
    AppendAssoc(start, done, added);
  }

  /** Falling out of the loop after the last attempt returns the last run's result. */
  lemma LoopEnds(spec: Tail, start: seq<ChatMessage>, runs: seq<string>, rows: seq<AvoidRow>, done: seq<ChatMessage>,
                 messages: seq<ChatMessage>, code: JString, stdErr: JString, last: Option<ProcessResult>, ops: Ops)
    requires Extends(spec, runs, rows, done, FixFrom(MaxAttempts + 1, messages, code, stdErr, last, ops))
    ensures Performed(spec, start, start + done, Returns(last), runs, rows)
  {
    AppendEmpty(runs);
    AppendEmpty(rows);
    AppendEmpty(done);
  }

  /** One iteration of the loop: the fix request, the run of the fixed code and
      the avoid-error round. `stop` is how the call ends when it ends here. */
  method Attempt(request: ChatRequest, attempt: nat, code: JString, stdErr: JString,
                 last: Option<ProcessResult>, env: Env)
    returns (stop: Option<Completion<Option<ProcessResult>>>, code': JString, stdErr': JString,
             last': Option<ProcessResult>, run: seq<string>, row: seq<AvoidRow>, ghost added: seq<ChatMessage>)
    requires attempt <= MaxAttempts
    modifies request
    ensures request.messages == old(request.messages) + added
    ensures stop.Some? ==>
      Ends(FixFrom(attempt, old(request.messages), code, stdErr, last, OpsOf(env)), run, row, added, stop.value)
    ensures stop.None? ==>
      Extends(FixFrom(attempt, old(request.messages), code, stdErr, last, OpsOf(env)), run, row, added,
              FixFrom(attempt + 1, request.messages, code', stdErr', last', OpsOf(env)))
  {
    ghost var before := request.messages;
    assert FixFrom(attempt, before, code, stdErr, last, OpsOf(env)) == FixAt(attempt, before, code, stdErr, last, OpsOf(env));
    FixStep(attempt, before, code, stdErr, last, env);
    var ask := [ModelSays(code), FixAsk(FixRequest, stdErr)];
    request.messages := request.messages + ask;
    var fixed := GenManaimCode(env.stored, env.model(request.messages), env.parse);
    if fixed.Throws? || fixed.value.None? {
      return Some(if fixed.Throws? then Throws else Returns(None)), code, stdErr, last, [], [], ask;
    }
    var c := fixed.value.value;
    var result := env.execute(c);
    if result.Throws? {
      return Some(Throws), code, stdErr, last, [c], [], ask;
    }
    request.messages := request.messages + FixReport(c, env.fixPrompt);
    var avoid := AvoidPrompt(env.model(request.messages));
    if avoid.Throws? {
      assert request.messages == before + (ask + FixReport(c, env.fixPrompt));
      return Some(Throws), code, stdErr, last, [c], [], ask + FixReport(c, env.fixPrompt);
    }
    row := [AvoidRow(request.messages, avoid.value)];
    request.messages := request.messages + [ModelSays(avoid.value)];
    added := Round(code, stdErr, c, FixRequest, env.fixPrompt, avoid.value);
    assert request.messages == before + added;
    run, code', stdErr', last' := [c], fixed.value, result.value.stdErr, Some(result.value);
    stop := if IsNotBlank(result.value.output) then Some(Returns(Some(result.value))) else None;
  }

  /** One unfolding of `FixFrom`, phrased with the service's own calls. */
  lemma FixStep(attempt: nat, messages: seq<ChatMessage>, code: JString, stdErr: JString,
                last: Option<ProcessResult>, env: Env)
    requires attempt <= MaxAttempts
    ensures var ops := OpsOf(env);
      var ask := [ModelSays(code), FixAsk(FixRequest, stdErr)];
      var fixed := GenManaimCode(env.stored, env.model(messages + ask), env.parse);
      var t := FixAt(attempt, messages, code, stdErr, last, ops);
      && (fixed.Throws? ==> t == Tail(Throws, [], [], ask, [messages + ask]))
      && (fixed == Returns(None) ==> t == Tail(Returns(None), [], [], ask, [messages + ask]))
      && (fixed.Returns? && fixed.value.Some? ==>
            var c := fixed.value.value;
            var report := FixReport(c, env.fixPrompt);
            var avoid := AvoidPrompt(env.model(messages + ask + report));
            && (env.execute(c).Throws? ==> t == Tail(Throws, [c], [], ask, [messages + ask]))
            && (env.execute(c).Returns? && avoid.Throws? ==> t == Tail(Throws, [c], [], ask + report, [messages + ask]))
            && (env.execute(c).Returns? && avoid.Returns? ==>
                  var r := env.execute(c).value;
                  var round := Round(code, stdErr, c, FixRequest, env.fixPrompt, avoid.value);
                  var row := AvoidRow(messages + ask + report, avoid.value);
                  if IsNotBlank(r.output) then t == Tail(Returns(Some(r)), [c], [row], round, [messages + ask])
                  else
                    var rest := FixFrom(attempt + 1, messages + round, Some(c), r.stdErr, Some(r), ops);
                    t == Tail(rest.outcome, [c] + rest.runs, [row] + rest.rows, round + rest.appended, [messages + ask] + rest.fixRequests)))
  {
    var ops := OpsOf(env);
    var ask := [ModelSays(code), FixAsk(FixRequest, stdErr)];
    assert ops.generate(messages + ask) == GenManaimCode(env.stored, env.model(messages + ask), env.parse);
    var fixed := GenManaimCode(env.stored, env.model(messages + ask), env.parse);
    if fixed.Returns? && fixed.value.Some? {
      var c := fixed.value.value;
      var avoidRequest := messages + ask + FixReport(c, env.fixPrompt);
      assert ops.avoid(avoidRequest) == AvoidPrompt(env.model(avoidRequest));
    }
  }

  /* ---------- what the loop appends ---------- */

  /** The error text a run reports; a run that threw has none. */
  function StdErrOf(x: Completion<ProcessResult>): JString
  {
    if x.Returns? then x.value.stdErr else None
  }

  /** The messages appended by the full rounds that ran `runs`, starting from
      the failing `code`/`stdErr`; each round's avoid prompt is taken from `rows`. */
  function Transcript(code: JString, stdErr: JString, runs: seq<string>, rows: seq<AvoidRow>, ops: Ops): seq<ChatMessage>
    requires |rows| == |runs|
    decreases |runs|
  {
    if runs == [] then []
    else Round(code, stdErr, runs[0], ops.fixRequest, ops.fixPrompt, rows[0].prompt)
         + Transcript(Some(runs[0]), StdErrOf(ops.execute(runs[0])), runs[1..], rows[1..], ops)
  }

  /** The code and error the next round reports, after the full rounds `runs`. */
  function CodeAfter(code: JString, runs: seq<string>): JString
  {
    if runs == [] then code else Some(runs[|runs| - 1])
  }

  function ErrAfter(stdErr: JString, runs: seq<string>, ops: Ops): JString
  {
    if runs == [] then stdErr else StdErrOf(ops.execute(runs[|runs| - 1]))
  }

  /** A transcript that starts with the run `c` is that run's round, then the rest. */
  lemma TranscriptCons(code: JString, stdErr: JString, c: string, runs: seq<string>, row: AvoidRow,
                       rows: seq<AvoidRow>, ops: Ops)
    requires |rows| == |runs|
    ensures Transcript(code, stdErr, [c] + runs, [row] + rows, ops)
      == Round(code, stdErr, c, ops.fixRequest, ops.fixPrompt, row.prompt) + Transcript(Some(c), StdErrOf(ops.execute(c)), runs, rows, ops)
    ensures CodeAfter(Some(c), runs) == CodeAfter(code, [c] + runs)
    ensures ErrAfter(StdErrOf(ops.execute(c)), runs, ops) == ErrAfter(stdErr, [c] + runs, ops)
  {
    assert ([c] + runs)[1..] == runs;
    assert ([row] + rows)[1..] == rows;
  }

  /** The call gave up: a generation returned null, or an exception escaped. */
  predicate Aborted(t: Tail)
  {
    t.outcome == Throws || t.outcome == Returns(None)
  }

  /** At most one script run per remaining attempt; every run but possibly a
      last one that crashed saved its row; one generation request per saved
      row, and one more for the round that gave up. */
  predicate Bounded(t: Tail, attempt: nat)
  {
    && |t.runs| <= MaxAttempts + 1 - attempt && |t.rows| <= |t.runs| <= |t.rows| + 1
    && (|t.runs| > |t.rows| ==> t.outcome == Throws)
    && |t.fixRequests| == |t.rows| + (if Aborted(t) && attempt <= MaxAttempts then 1 else 0)
  }

  lemma {:induction false} FixRunsBounded(attempt: nat, messages: seq<ChatMessage>, code: JString, stdErr: JString,
                                          last: Option<ProcessResult>, ops: Ops)
    requires attempt <= MaxAttempts || (attempt == MaxAttempts + 1 && last.Some?)
    ensures Bounded(FixFrom(attempt, messages, code, stdErr, last, ops), attempt)
    decreases MaxAttempts + 1 - attempt
  {
    if attempt <= MaxAttempts {
      var t := FixFrom(attempt, messages, code, stdErr, last, ops);
      assert t == FixAt(attempt, messages, code, stdErr, last, ops);
      var ask := [ModelSays(code), FixAsk(ops.fixRequest, stdErr)];
      match ops.generate(messages + ask)
      case Throws =>
      case Returns(None) =>
      case Returns(Some(c)) =>
        match ops.execute(c)
        case Throws =>
        case Returns(r) =>
          match ops.avoid(messages + ask + FixReport(c, ops.fixPrompt))
          case Throws =>
          case Returns(avoid) =>
            if !IsNotBlank(r.output) {
              var next := messages + Round(code, stdErr, c, ops.fixRequest, ops.fixPrompt, avoid);
              var rest := FixFrom(attempt + 1, next, Some(c), r.stdErr, Some(r), ops);
              FixRunsBounded(attempt + 1, next, Some(c), r.stdErr, Some(r), ops);
              if attempt == MaxAttempts {
                assert rest.outcome == Returns(Some(r));
              }
              RunsBoundedStep(attempt, rest, t);
            }
    }
  }

  /** `Bounded` carries over from the rounds after a round that ran to that round. */
  lemma RunsBoundedStep(attempt: nat, inner: Tail, outer: Tail)
    requires attempt <= MaxAttempts && Bounded(inner, attempt + 1)
    requires attempt == MaxAttempts ==> !Aborted(inner)
    requires outer.outcome == inner.outcome && |outer.runs| == 1 + |inner.runs| && |outer.rows| == 1 + |inner.rows|
    requires |outer.fixRequests| == 1 + |inner.fixRequests|
    ensures Bounded(outer, attempt)
  {
  }

  /** The messages appended after the full rounds of a call that gave up: the
      model/user pair of the last request, and — when its script ran but the
      avoid-error request threw — the model/user pair sent for that request. */
  function Pending(t: Tail, code: JString, stdErr: JString, ops: Ops): seq<ChatMessage>
    requires |t.rows| <= |t.runs|
  {
    if !Aborted(t) then []
    else
      var done := t.runs[..|t.rows|];
      [ModelSays(CodeAfter(code, done)), FixAsk(ops.fixRequest, ErrAfter(stdErr, done, ops))]
      + (if |t.runs| > |t.rows| && ops.execute(t.runs[|t.rows|]).Returns? then FixReport(t.runs[|t.rows|], ops.fixPrompt) else [])
  }

  /** The appended messages of `t`, begun from the failing `code`/`stdErr`, are
      exactly the five-message rounds of the scripts whose rows were saved, in
      order, followed by what the round that gave up had appended. */
  predicate Transcribed(t: Tail, code: JString, stdErr: JString, ops: Ops)
  {
    |t.rows| <= |t.runs| &&
    t.appended == Transcript(code, stdErr, t.runs[..|t.rows|], t.rows, ops) + Pending(t, code, stdErr, ops)
  }

  lemma {:induction false} FixTranscript(attempt: nat, messages: seq<ChatMessage>, code: JString, stdErr: JString,
                                         last: Option<ProcessResult>, ops: Ops)
    requires attempt <= MaxAttempts || (attempt == MaxAttempts + 1 && last.Some?)
    ensures Transcribed(FixFrom(attempt, messages, code, stdErr, last, ops), code, stdErr, ops)
    decreases MaxAttempts + 1 - attempt
  {
    var t := FixFrom(attempt, messages, code, stdErr, last, ops);
    if attempt > MaxAttempts {
      TranscriptNone(t, code, stdErr, ops);
      return;
    }
    assert t == FixAt(attempt, messages, code, stdErr, last, ops);
    var ask := [ModelSays(code), FixAsk(ops.fixRequest, stdErr)];
    match ops.generate(messages + ask)
    case Throws =>
      TranscriptGaveUp(t, code, stdErr, ops);
    case Returns(None) =>
      TranscriptGaveUp(t, code, stdErr, ops);
    case Returns(Some(c)) =>
      match ops.execute(c)
      case Throws =>
        TranscriptCrashed(t, code, stdErr, c, ops);
      case Returns(r) =>
        var avoidRequest := messages + ask + FixReport(c, ops.fixPrompt);
        match ops.avoid(avoidRequest)
        case Throws =>
          TranscriptCrashed(t, code, stdErr, c, ops);
        case Returns(avoid) =>
          var round := Round(code, stdErr, c, ops.fixRequest, ops.fixPrompt, avoid);
          var row := AvoidRow(avoidRequest, avoid);
          if IsNotBlank(r.output) {
            TranscriptLastRound(t, code, stdErr, c, row, ops);
          } else {
            var rest := FixFrom(attempt + 1, messages + round, Some(c), r.stdErr, Some(r), ops);
            FixTranscript(attempt + 1, messages + round, Some(c), r.stdErr, Some(r), ops);
            FixRunsBounded(attempt + 1, messages + round, Some(c), r.stdErr, Some(r), ops);
            TranscriptStep(code, stdErr, c, row, rest, t, ops);
          }
  }

  /** Past the last attempt nothing more is appended. */
  lemma TranscriptNone(t: Tail, code: JString, stdErr: JString, ops: Ops)
    requires t.runs == [] && t.rows == [] && t.appended == [] && t.outcome.Returns? && t.outcome.value.Some?
    ensures Transcribed(t, code, stdErr, ops)
  {
  }

  /** A round whose generation gave up appends only its model/user pair. */
  lemma TranscriptGaveUp(t: Tail, code: JString, stdErr: JString, ops: Ops)
    requires Aborted(t) && t.runs == [] && t.rows == []
    requires t.appended == [ModelSays(code), FixAsk(ops.fixRequest, stdErr)]
    ensures Transcribed(t, code, stdErr, ops)
  {
    AppendEmpty(t.appended);
  }

  /** A round whose run of `c`, or whose avoid-error request after it, threw. */
  lemma TranscriptCrashed(t: Tail, code: JString, stdErr: JString, c: string, ops: Ops)
    requires t.outcome == Throws && t.runs == [c] && t.rows == []
    requires t.appended == [ModelSays(code), FixAsk(ops.fixRequest, stdErr)]
      + (if ops.execute(c).Returns? then FixReport(c, ops.fixPrompt) else [])
    ensures Transcribed(t, code, stdErr, ops)
  {
    assert t.runs[..0] == [];
    AppendEmpty(t.appended);
    if ops.execute(c).Throws? {
      AppendEmpty([ModelSays(code), FixAsk(ops.fixRequest, stdErr)]);
    }
  }

  /** A round whose run succeeded appends its five messages and stops. */
  lemma TranscriptLastRound(t: Tail, code: JString, stdErr: JString, c: string, row: AvoidRow, ops: Ops)
    requires !Aborted(t) && t.runs == [c] && t.rows == [row]
    requires t.appended == Round(code, stdErr, c, ops.fixRequest, ops.fixPrompt, row.prompt)
    ensures Transcribed(t, code, stdErr, ops)
  {
    assert [c][1..] == [] && [row][1..] == [];
    assert t.runs[..1] == [c];
    AppendEmpty(t.appended);
  }

  /** The rounds after a full round, seen from before that round. */
  lemma TranscriptStep(code: JString, stdErr: JString, c: string, row: AvoidRow, inner: Tail, outer: Tail, ops: Ops)
    requires Transcribed(inner, Some(c), StdErrOf(ops.execute(c)), ops)
    requires |inner.runs| <= |inner.rows| + 1
    requires outer.outcome == inner.outcome && outer.runs == [c] + inner.runs && outer.rows == [row] + inner.rows
    requires outer.appended == Round(code, stdErr, c, ops.fixRequest, ops.fixPrompt, row.prompt) + inner.appended
    ensures Transcribed(outer, code, stdErr, ops)
  {
    var done := inner.runs[..|inner.rows|];
    assert outer.runs[..|outer.rows|] == [c] + done;
    TranscriptCons(code, stdErr, c, done, row, inner.rows, ops);
    assert Aborted(outer) == Aborted(inner);
    if |inner.runs| > |inner.rows| {
      assert outer.runs[|outer.rows|] == inner.runs[|inner.rows|];
    }
    assert Pending(outer, code, stdErr, ops) == Pending(inner, Some(c), StdErrOf(ops.execute(c)), ops);
    AppendAssoc(Round(code, stdErr, c, ops.fixRequest, ops.fixPrompt, row.prompt),
                Transcript(Some(c), StdErrOf(ops.execute(c)), done, inner.rows, ops),
                Pending(inner, Some(c), StdErrOf(ops.execute(c)), ops));
  }

  /** Every run but the last returned, with blank output. */
  predicate EarlierRunsBlank(runs: seq<string>, execute: string -> Completion<ProcessResult>)
  {
    forall j :: 0 <= j < |runs| - 1 ==> execute(runs[j]).Returns? && IsBlank(execute(runs[j]).value.output)
  }

  /** Every run but the last returned with blank output, whatever its stderr said. */
  lemma {:induction false} FixEarlierRunsBlank(attempt: nat, messages: seq<ChatMessage>, code: JString, stdErr: JString,
                                               last: Option<ProcessResult>, ops: Ops)
    ensures EarlierRunsBlank(FixFrom(attempt, messages, code, stdErr, last, ops).runs, ops.execute)
    decreases MaxAttempts + 1 - attempt
  {
    if attempt <= MaxAttempts {
      var ask := [ModelSays(code), FixAsk(ops.fixRequest, stdErr)];
      match ops.generate(messages + ask)
      case Throws =>
      case Returns(None) =>
      case Returns(Some(c)) =>
        match ops.execute(c)
        case Throws =>
        case Returns(r) =>
          match ops.avoid(messages + ask + FixReport(c, ops.fixPrompt))
          case Throws =>
          case Returns(avoid) =>
            if !IsNotBlank(r.output) {
              FixEarlierRunsBlank(attempt + 1, messages + Round(code, stdErr, c, ops.fixRequest, ops.fixPrompt, avoid), Some(c), r.stdErr, Some(r), ops);
            }
    }
  }

  /** The last element of a sequence with `c` in front. */
  lemma LastOfCons<T>(c: T, s: seq<T>)
    requires s != []
    ensures ([c] + s)[|[c] + s| - 1] == s[|s| - 1]
  {
  }

  /** Unless the call gave up, `t` returns the result of its last run, and that
      run either had non-blank output or used up the attempts from `attempt`. */
  predicate ReturnsLastRun(t: Tail, attempt: nat, ops: Ops)
  {
    !Aborted(t) ==>
      && t.runs != [] && ops.execute(t.runs[|t.runs| - 1]).Returns?
      && t.outcome == Returns(Some(ops.execute(t.runs[|t.runs| - 1]).value))
      && (IsNotBlank(ops.execute(t.runs[|t.runs| - 1]).value.output) || |t.runs| == MaxAttempts + 1 - attempt)
  }

  lemma {:induction false} FixReturnsLastRun(attempt: nat, messages: seq<ChatMessage>, code: JString, stdErr: JString,
                                             last: Option<ProcessResult>, ops: Ops)
    requires attempt <= MaxAttempts
    ensures ReturnsLastRun(FixFrom(attempt, messages, code, stdErr, last, ops), attempt, ops)
    decreases MaxAttempts + 1 - attempt
  {
    var t := FixFrom(attempt, messages, code, stdErr, last, ops);
    assert t == FixAt(attempt, messages, code, stdErr, last, ops);
    var ask := [ModelSays(code), FixAsk(ops.fixRequest, stdErr)];
    match ops.generate(messages + ask)
    case Throws =>
    case Returns(None) =>
    case Returns(Some(c)) =>
      match ops.execute(c)
      case Throws =>
      case Returns(r) =>
        match ops.avoid(messages + ask + FixReport(c, ops.fixPrompt))
        case Throws =>
        case Returns(avoid) =>
          var next := messages + Round(code, stdErr, c, ops.fixRequest, ops.fixPrompt, avoid);
          var rest := FixFrom(attempt + 1, next, Some(c), r.stdErr, Some(r), ops);
          if IsNotBlank(r.output) {
            LastRunAlone(t, c, attempt, ops);
          } else if attempt < MaxAttempts {
            FixReturnsLastRun(attempt + 1, next, Some(c), r.stdErr, Some(r), ops);
            LastRunStep(c, rest, t, attempt, ops);
          } else {
            assert rest == Tail(Returns(Some(r)), [], [], [], []);
            assert t.runs == [c] + [];
            LastRunAlone(t, c, attempt, ops);
          }
  }

  /** A call whose only run is `c`, returning its result. */
  lemma LastRunAlone(t: Tail, c: string, attempt: nat, ops: Ops)
    requires ops.execute(c).Returns?
    requires t.runs == [c] + [] && t.outcome == Returns(Some(ops.execute(c).value))
    requires IsNotBlank(ops.execute(c).value.output) || attempt == MaxAttempts
    ensures ReturnsLastRun(t, attempt, ops)
  {
    AppendEmpty([c]);
  }

  /** The rounds after a blank run decide the result of the whole call. */
  lemma LastRunStep(c: string, inner: Tail, outer: Tail, attempt: nat, ops: Ops)
    requires ReturnsLastRun(inner, attempt + 1, ops)
    requires outer.outcome == inner.outcome && outer.runs == [c] + inner.runs
    ensures ReturnsLastRun(outer, attempt, ops)
  {
    if !Aborted(inner) {
      LastOfCons(c, inner.runs);
    }
  }

  predicate AllSame(runs: seq<string>, c: string)
  {
    forall j :: 0 <= j < |runs| ==> runs[j] == c
  }

  /** When every generation request returns the same code, every round runs that
      code and no round returns null; when moreover that code runs and no
      avoid-error request throws, nothing escapes the call. */
  lemma {:induction false} ConstantCodeIsRerun(attempt: nat, messages: seq<ChatMessage>, code: JString, stdErr: JString,
                                               last: Option<ProcessResult>, ops: Ops, c: string)
    requires forall request :: ops.generate(request) == Returns(Some(c))
    ensures var t := FixFrom(attempt, messages, code, stdErr, last, ops);
      && AllSame(t.runs, c)
      && (attempt <= MaxAttempts ==> t.outcome != Returns(None))
      && (ops.execute(c).Returns? && (forall request :: ops.avoid(request).Returns?) ==> !t.outcome.Throws?)
    decreases MaxAttempts + 1 - attempt
  {
    var t := FixFrom(attempt, messages, code, stdErr, last, ops);
    if attempt <= MaxAttempts {
      assert t == FixAt(attempt, messages, code, stdErr, last, ops);
      var ask := [ModelSays(code), FixAsk(ops.fixRequest, stdErr)];
      assert ops.generate(messages + ask) == Returns(Some(c));
      match ops.execute(c)
      case Throws =>
        assert t == Tail(Throws, [c], [], ask, [messages + ask]);
      case Returns(r) =>
        var avoidRequest := messages + ask + FixReport(c, ops.fixPrompt);
        match ops.avoid(avoidRequest)
        case Throws =>
          assert t == Tail(Throws, [c], [], ask + FixReport(c, ops.fixPrompt), [messages + ask]);
        case Returns(avoid) =>
          var round := Round(code, stdErr, c, ops.fixRequest, ops.fixPrompt, avoid);
          var row := AvoidRow(avoidRequest, avoid);
          if IsNotBlank(r.output) {
            assert t == Tail(Returns(Some(r)), [c], [row], round, [messages + ask]);
          } else {
            var inner := FixFrom(attempt + 1, messages + round, Some(c), r.stdErr, Some(r), ops);
            ConstantCodeIsRerun(attempt + 1, messages + round, Some(c), r.stdErr, Some(r), ops, c);
            assert t.outcome == inner.outcome && t.runs == [c] + inner.runs;
          }
    } else {
      assert t == Tail(Returns(last), [], [], [], []);
    }
  }

  lemma {:induction false} TranscriptLength(code: JString, stdErr: JString, runs: seq<string>, rows: seq<AvoidRow>, ops: Ops)
    requires |rows| == |runs|
    ensures |Transcript(code, stdErr, runs, rows, ops)| == 5 * |runs|
    decreases |runs|
  {
    if runs != [] {
      TranscriptLength(Some(runs[0]), StdErrOf(ops.execute(runs[0])), runs[1..], rows[1..], ops);
    }
  }

  /* ---------- the call as the service makes it ---------- */

  /** At most ten script runs (one executor call each), every one but a last
      that threw with its row saved; the result is null or an exception only when
      the call gave up, and otherwise the result of the last run, which is the
      first run with non-blank output or the tenth run. */
  lemma FixCodeAndRerunResult(messages: seq<ChatMessage>, code: JString, stdErr: JString, env: Env)
    ensures var t := FixCodeAndRerunSpec(messages, code, stdErr, env);
      && |t.runs| <= MaxAttempts && |t.rows| <= |t.runs| <= |t.rows| + 1
      && (|t.runs| > |t.rows| ==> t.outcome == Throws)
      && EarlierRunsBlank(t.runs, env.execute)
      && (!Aborted(t) ==>
            && t.runs != [] && env.execute(t.runs[|t.runs| - 1]).Returns?
            && t.outcome == Returns(Some(env.execute(t.runs[|t.runs| - 1]).value))
            && (IsNotBlank(env.execute(t.runs[|t.runs| - 1]).value.output) || |t.runs| == MaxAttempts))
  {
    FixRunsBounded(1, messages, code, stdErr, None, OpsOf(env));
    FixEarlierRunsBlank(1, messages, code, stdErr, None, OpsOf(env));
    FixReturnsLastRun(1, messages, code, stdErr, None, OpsOf(env));
  }

  /** Five messages per saved row, two more when the call gave up, and two more
      again when the script of that last round ran but its avoid-error request threw. */
  lemma FixCodeAndRerunMessages(messages: seq<ChatMessage>, code: JString, stdErr: JString, env: Env)
    ensures var t := FixCodeAndRerunSpec(messages, code, stdErr, env);
      |t.rows| < |t.runs| ==>
      |t.appended| == 5 * |t.rows| + 2 + (if env.execute(t.runs[|t.rows|]).Returns? then 2 else 0)
    ensures var t := FixCodeAndRerunSpec(messages, code, stdErr, env);
      |t.rows| >= |t.runs| ==> |t.appended| == 5 * |t.rows| + (if Aborted(t) then 2 else 0)
  {
    var ops := OpsOf(env);
    FixTranscript(1, messages, code, stdErr, None, ops);
    FixRunsBounded(1, messages, code, stdErr, None, ops);
    var t := FixCodeAndRerunSpec(messages, code, stdErr, env);
    TranscriptLength(code, stdErr, t.runs[..|t.rows|], t.rows, ops);
  }

  /** The model is asked for an avoid prompt once per saved row, and for code
      once per generation request — unless the md5 has a stored row, which every
      request returns without asking the model. */
  function ModelCalls(t: Tail, env: Env): nat
  {
    |t.rows| + (if env.stored.None? then |t.fixRequests| else 0)
  }

  /** With a stored row for the md5, every attempt runs the stored code and no
      round returns null; when that code runs and every reply has a candidate,
      the call does not give up and the model is asked only for the avoid prompts. */
  lemma StoredCodeIsRerun(messages: seq<ChatMessage>, code: JString, stdErr: JString, env: Env)
    requires env.stored.Some?
    ensures var t := FixCodeAndRerunSpec(messages, code, stdErr, env);
      && AllSame(t.runs, env.stored.value) && t.outcome != Returns(None)
      && (env.execute(env.stored.value).Returns? && (forall request :: !env.model(request).NoCandidate?) ==>
            !Aborted(t) && ModelCalls(t, env) == |t.runs|)
  {
    var ops := OpsOf(env);
    forall request
      ensures ops.generate(request) == Returns(Some(env.stored.value))
    {
      assert ops.generate(request) == GenManaimCode(env.stored, env.model(request), env.parse);
    }
    if forall request :: !env.model(request).NoCandidate? {
      forall request
        ensures ops.avoid(request).Returns?
      {
        assert ops.avoid(request) == AvoidPrompt(env.model(request));
      }
    }
    ConstantCodeIsRerun(1, messages, code, stdErr, None, ops, env.stored.value);
    FixRunsBounded(1, messages, code, stdErr, None, ops);
  }
}
