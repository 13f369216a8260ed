/** `MainimService.index`: a scene text is turned into Manim code, which is run
    and, while it fails, sent back to the model for a fix, for at most eleven
    runs in all. Unlike `LinuxService`, a run succeeds when its stderr is blank.
    The two models (scene and code), the JSON parser and the executor are
    parameters; prompt templates, logging and the final `println` are not modelled. */
module MainimCascade {
  import opened JavaText
  import opened CodeExtraction
  import opened LinuxRetry

  const MaxRuns := 11
  const SceneSuffix := "  \r\nplease reply use this message language"
  const CodeSuffix := "  \r\nThe generated subtitles and narration must use the language of this message."
  const AvoidAsk := "将这个问题写成提示词,防止你下次生成代时再出现这边错误.我要添加到大模型的提示的模板中,英文输出"

  /** The outside world of `index`: the scene model (gemini-2.0-flash), the code
      model (gemini-2.5-pro), the JSON parser (on the UTF-16 code units of the
      slice) and the executor. Nothing in this service catches an exception: not
      one from either model, nor reading a reply without a candidate, nor the
      executor's, nor `getStdErr()` on its null result. */
  datatype MainimEnv = MainimEnv(
    sceneModel: seq<ChatMessage> -> Generation,
    codeModel: seq<ChatMessage> -> Generation,
    parse: seq<CodeUnit> -> JsonParse,
    execute: JString -> Completion<ProcessResult>)

  /** `genSence`: one user message, the text with the language suffix (a null
      text reads "null"). The text of the first candidate is returned, null text
      as null; a failed request or a reply without a candidate throws. */
  function GenSence(text: JString, model: seq<ChatMessage> -> Generation): (r: Completion<JString>)
    ensures var gen := model([ChatMessage("user", Some(Render(text) + SceneSuffix))]);
      && (r.Throws? <==> !gen.Generated?)
      && (r.Returns? ==> r.value == gen.text)
  {
    match model([ChatMessage("user", Some(Render(text) + SceneSuffix))])
    case GenerateFailed => Throws
    case NoCandidate => Throws
    case Generated(reply) => Returns(reply)
  }

  /** The first user message of the code conversation. */
  function SceneMessage(generatedText: JString): ChatMessage
  {
    ChatMessage("user", Some(Render(generatedText) + CodeSuffix))
  }

  /** The private `genManimCode`: Returns(None) is its `return null` (no "```json"
      in the reply, or a null ToolVo), Returns(Some(code)) the tool's code field,
      which may itself be null. A failed request, a reply without a candidate,
      a null reply text, a slice out of range or a parse error escapes as an exception. */
  function GenManimCode(gen: Generation, parse: seq<CodeUnit> -> JsonParse): (r: Completion<Option<JString>>)
    ensures !gen.Generated? || gen.text.None? ==> r.Throws?
    ensures gen.Generated? && gen.text.Some? && IndexOf(gen.text.value, JsonFence) == -1 ==> r == Returns(None)
  {
    match gen
    case GenerateFailed => Throws
    case NoCandidate => Throws
    case Generated(None) => Throws
    case Generated(Some(reply)) =>
      match SliceJson(reply)
      case NoJsonFence => Returns(None)
      case SliceThrows => Throws
      case Sliced(json) =>
        match parse(json)
        case ParsedTool(code) => Returns(Some(code))
        case ParsedNull => Returns(None)
        case ParseError => Throws
  }

  /** Why `index` stopped without an exception: no "```json" in the first reply,
      a regeneration that gave null, a run with blank stderr, or eleven failing runs. */
  datatype Stop = NoJson | NoFix | CleanRun | StillFailing

  /** What the runs from some point on add: how the call ends, the code run by
      each execution, the messages appended, and whether the avoid-error prompt
      was requested. */
  datatype Cascade = Cascade(outcome: Completion<Stop>, runs: seq<JString>, appended: seq<ChatMessage>, avoidAsked: bool)

  /** The pair appended before a regeneration (or before the avoid request). */
  function FailurePair(code: JString, ask: string, stdErr: JString): seq<ChatMessage>
  {
    [ModelSays(code), ChatMessage("user", Some(Concat(ask, stdErr)))]
  }

  /** Execution `n` of `code` with the conversation so far, and those after it. */
  function CascadeFrom(n: nat, code: JString, messages: seq<ChatMessage>, env: MainimEnv): Cascade
    requires 1 <= n <= MaxRuns
    decreases MaxRuns - n, 1
  {
    match env.execute(code)
    case Throws => Cascade(Throws, [code], [], false)
    case Returns(result) =>
      var err := result.stdErr;
      if IsBlank(err) then
        if n == 3 then
          var pair := FailurePair(code, AvoidAsk, err);
          Cascade(if !env.codeModel(messages + pair).Generated? then Throws else Returns(CleanRun), [code], pair, true)
        else Cascade(Returns(CleanRun), [code], [], false)
      else if n == MaxRuns then Cascade(Returns(StillFailing), [code], [], false)
      else Regenerate(n, code, err, messages, env)
  }

  /** After failing execution `n` (not the last): the fix request and what follows it. */
  function Regenerate(n: nat, code: JString, err: JString, messages: seq<ChatMessage>, env: MainimEnv): Cascade
    requires 1 <= n < MaxRuns
    decreases MaxRuns - n, 0
  {
    var pair := FailurePair(code, FixRequest, err);
    match GenManimCode(env.codeModel(messages + pair), env.parse)
    case Throws => Cascade(Throws, [code], pair, false)
    case Returns(None) => Cascade(Returns(NoFix), [code], pair, false)
    case Returns(Some(fixed)) =>
      var t := CascadeFrom(n + 1, fixed, messages + pair, env);
      Cascade(t.outcome, [code] + t.runs, pair + t.appended, t.avoidAsked)
  }

  /** From execution `n` on there is at least one execution and at most `MaxRuns + 1 - n`. */
  lemma {:induction false} CascadeBounded(n: nat, code: JString, messages: seq<ChatMessage>, env: MainimEnv)
    requires 1 <= n <= MaxRuns
    ensures 1 <= |CascadeFrom(n, code, messages, env).runs| <= MaxRuns + 1 - n
    decreases MaxRuns - n, 1
  {
    match env.execute(code)
    case Throws =>
    case Returns(result) =>
      if !IsBlank(result.stdErr) && n != MaxRuns {
        RegenerateBounded(n, code, result.stdErr, messages, env);
      }
  }

  /** The same bound after failing execution `n`. */
  lemma {:induction false} RegenerateBounded(n: nat, code: JString, err: JString, messages: seq<ChatMessage>, env: MainimEnv)
    requires 1 <= n < MaxRuns
    ensures 1 <= |Regenerate(n, code, err, messages, env).runs| <= MaxRuns + 1 - n
    decreases MaxRuns - n, 0
  {
    var pair := FailurePair(code, FixRequest, err);
    match GenManimCode(env.codeModel(messages + pair), env.parse)
    case Throws =>
    case Returns(None) =>
    case Returns(Some(fixed)) =>
      CascadeBounded(n + 1, fixed, messages + pair, env);
  }

  /** `index` from the scene model's reply on: the whole conversation appended
      after the first message is in `appended`. */
  function IndexAfterScene(generatedText: JString, env: MainimEnv): Cascade
  {
    var first := [SceneMessage(generatedText)];
    match env.codeModel(first)
    case GenerateFailed => Cascade(Throws, [], [], false)
    case NoCandidate => Cascade(Throws, [], [], false)
    case Generated(None) => Cascade(Throws, [], [], false)
    case Generated(Some(reply)) =>
      match SliceJson(reply)
      case NoJsonFence => Cascade(Returns(NoJson), [], [], false)
      case SliceThrows => Cascade(Throws, [], [], false)
      case Sliced(json) =>
        match env.parse(json)
        case ParsedTool(code) => CascadeFrom(1, code, first, env)
        case ParsedNull => Cascade(Throws, [], [], false)
        case ParseError => Cascade(Throws, [], [], false)
  }

  /** The whole of `index`: None when `genSence` throws. */
  function IndexSpec(text: JString, env: MainimEnv): Option<(JString, Cascade)>
  {
    match GenSence(text, env.sceneModel)
    case Throws => None
    case Returns(g) => Some((g, IndexAfterScene(g, env)))
  }

  /** `c` is what `runs` and `appended` are followed by `rest`, ending as `rest` does. */
  predicate Continues(c: Cascade, runs: seq<JString>, appended: seq<ChatMessage>, rest: Cascade)
  {
    c.outcome == rest.outcome && c.runs == runs + rest.runs
    && c.appended == appended + rest.appended && c.avoidAsked == rest.avoidAsked
  }

  /** `index` itself. */
  method Index(text: JString, env: MainimEnv)
    returns (outcome: Completion<Stop>, runs: seq<JString>, messages: seq<ChatMessage>, avoidAsked: bool)
    ensures IndexSpec(text, env).None? ==> outcome == Throws && runs == [] && messages == [] && !avoidAsked
    ensures IndexSpec(text, env).Some? ==>
      var (g, c) := IndexSpec(text, env).value;
      outcome == c.outcome && runs == c.runs && messages == [SceneMessage(g)] + c.appended && avoidAsked == c.avoidAsked
  {
    var generatedText := GenSence(text, env.sceneModel);
    if generatedText.Throws? {
      return Throws, [], [], false;
    }
    var stop, code;
    stop, code, messages := FirstCode(generatedText.value, env);
    if stop.Some? {
      AppendEmpty(messages);
      return stop.value, [], messages, false;
    }
    outcome, runs, messages, avoidAsked := RunCascade(code, messages, env);
  }

  /** The first code request: the scene message, the "```json" slice of the
      reply and the ToolVo parsed from it. `stop` is how `index` ends when it
      ends before any execution. */
  method FirstCode(generatedText: JString, env: MainimEnv)
    returns (stop: Option<Completion<Stop>>, code: JString, messages: seq<ChatMessage>)
    ensures messages == [SceneMessage(generatedText)]
    ensures stop.Some? ==> IndexAfterScene(generatedText, env) == Cascade(stop.value, [], [], false)
    ensures stop.None? ==> IndexAfterScene(generatedText, env) == CascadeFrom(1, code, messages, env)
  {
    messages := [SceneMessage(generatedText)];
    code := None;
    var reply := env.codeModel(messages);
    if !reply.Generated? || reply.text.None? {
      return Some(Throws), code, messages;
    }
    var json := SliceJson(reply.text.value);
    if json.NoJsonFence? {
      return Some(Returns(NoJson)), code, messages;
    } else if json.SliceThrows? {
      return Some(Throws), code, messages;
    }
    var toolVo := env.parse(json.json);
    if !toolVo.ParsedTool? {
      return Some(Throws), code, messages;
    }
    code := toolVo.code;
    stop := None;
  }

  /** The nested execute/regenerate steps of `index` as one loop over the
      execution number `n`, appending to the conversation in `messages`. */
  method RunCascade(code: JString, messages: seq<ChatMessage>, env: MainimEnv)
    returns (outcome: Completion<Stop>, runs: seq<JString>, messages': seq<ChatMessage>, avoidAsked: bool)
    ensures var t := CascadeFrom(1, code, messages, env);
      outcome == t.outcome && runs == t.runs && messages' == messages + t.appended && avoidAsked == t.avoidAsked
  {
    ghost var spec := CascadeFrom(1, code, messages, env);
    ghost var done: seq<ChatMessage> := [];
    var current := code;
    runs, messages', avoidAsked := [], messages, false;
    AppendEmpty(spec.runs);
    AppendEmpty(spec.appended);
    AppendEmpty(messages);
    var n := 1;
    while true
      invariant 1 <= n <= MaxRuns && messages' == messages + done
      invariant Continues(spec, runs, done, CascadeFrom(n, current, messages', env))
      decreases MaxRuns - n
    {
      ghost var t := CascadeFrom(n, current, messages', env);
      var ran := current;
      var stop, pair;
      stop, current, messages', avoidAsked, pair := Execute(n, current, messages', env);
      AppendAssoc(messages, done, pair);
      if stop.Some? {
        return stop.value, runs + [ran], messages', avoidAsked;
      }
      ContinuesTrans(spec, runs, done, t, [ran], pair, CascadeFrom(n + 1, current, messages', env));
      runs, done := runs + [ran], done + pair;
      n := n + 1;
    }
  }

  lemma ContinuesTrans(c: Cascade, runs: seq<JString>, appended: seq<ChatMessage>, mid: Cascade,
                       runs': seq<JString>, appended': seq<ChatMessage>, rest: Cascade)
    requires Continues(c, runs, appended, mid) && Continues(mid, runs', appended', rest)
    ensures Continues(c, runs + runs', appended + appended', rest)
  {
    AppendAssoc(runs, runs', rest.runs);
    AppendAssoc(appended, appended', rest.appended);
  }

  /** Execution `n` and what follows it in the same step: the avoid request
      after a clean third run, or the fix request after a failing run before
      the eleventh. `stop` is how `index` ends when it ends here. */
  method Execute(n: nat, code: JString, messages: seq<ChatMessage>, env: MainimEnv)
    returns (stop: Option<Completion<Stop>>, code': JString, messages': seq<ChatMessage>, avoidAsked: bool,
             pair: seq<ChatMessage>)
    requires 1 <= n <= MaxRuns
    ensures messages' == messages + pair
    ensures stop.Some? ==>
      CascadeFrom(n, code, messages, env) == Cascade(stop.value, [code], pair, avoidAsked)
    ensures stop.None? ==>
      n < MaxRuns && !avoidAsked &&
      Continues(CascadeFrom(n, code, messages, env), [code], pair, CascadeFrom(n + 1, code', messages', env))
  {
    code', avoidAsked := code, false;
    var result := env.execute(code);
    if result.Throws? {
      AppendEmpty(messages);
      return Some(Throws), code', messages, avoidAsked, [];
    }
    var stdErr := result.value.stdErr;
    if IsBlank(stdErr) {
      pair := [];
      if n == 3 {
        pair := FailurePair(code, AvoidAsk, stdErr);
        avoidAsked := true;
        var avoidPrompt := env.codeModel(messages + pair);
        if !avoidPrompt.Generated? {
          return Some(Throws), code', messages + pair, avoidAsked, pair;
        }
      } else {
        AppendEmpty(messages);
      }
      return Some(Returns(CleanRun)), code', messages + pair, avoidAsked, pair;
    }
    if n == MaxRuns {
      AppendEmpty(messages);
      return Some(Returns(StillFailing)), code', messages, avoidAsked, [];
    }
    assert CascadeFrom(n, code, messages, env) == Regenerate(n, code, stdErr, messages, env);
    pair := FailurePair(code, FixRequest, stdErr);
    messages' := messages + pair;
    var fixed := GenManimCode(env.codeModel(messages'), env.parse);
    if fixed.Throws? {
      return Some(Throws), code', messages', avoidAsked, pair;
    } else if fixed.value.None? {
      return Some(Returns(NoFix)), code', messages', avoidAsked, pair;
    }
    code' := fixed.value.value;
    stop := None;
  }

  /* ---------- what the cascade does ---------- */

  /** The error text of a run of `code`; a run that threw has none. */
  function StdErr(code: JString, env: MainimEnv): JString
  {
    StdErrOf(env.execute(code))
  }

  /** The run of `code` returned a result. */
  predicate Ran(code: JString, env: MainimEnv)
  {
    env.execute(code).Returns?
  }

  /** The run of `code` returned with a non-blank stderr. */
  predicate Failed(code: JString, env: MainimEnv)
  {
    Ran(code, env) && IsNotBlank(StdErr(code, env))
  }

  /** The run of `code` returned with a blank stderr. */
  predicate Clean(code: JString, env: MainimEnv)
  {
    Ran(code, env) && IsBlank(StdErr(code, env))
  }

  /** Every execution but the last returned with a non-blank stderr. */
  predicate EarlierFailed(runs: seq<JString>, env: MainimEnv)
  {
    forall j :: 0 <= j < |runs| - 1 ==> Failed(runs[j], env)
  }

  lemma {:induction false} CascadeEarlierFailed(n: nat, code: JString, messages: seq<ChatMessage>, env: MainimEnv)
    requires 1 <= n <= MaxRuns
    ensures EarlierFailed(CascadeFrom(n, code, messages, env).runs, env)
    decreases MaxRuns - n
  {
    if Failed(code, env) && n < MaxRuns {
      var pair := FailurePair(code, FixRequest, StdErr(code, env));
      var fixed := GenManimCode(env.codeModel(messages + pair), env.parse);
      if fixed.Returns? && fixed.value.Some? {
        CascadeEarlierFailed(n + 1, fixed.value.value, messages + pair, env);
      }
    }
  }

  /** The last execution of `t`, begun at execution `n`, decides how `t` ends:
      a run that threw ends it with that exception, a clean run ends it (with
      the avoid request when it was the third), a failing run ends it only as
      the eleventh or when the regeneration gives null or throws. */
  predicate EndsAsLastRun(t: Cascade, n: nat, env: MainimEnv)
  {
    t.runs != [] &&
    var last := t.runs[|t.runs| - 1];
    && (!Ran(last, env) ==> t.outcome == Throws && !t.avoidAsked)
    && (Clean(last, env) ==> t.outcome == Returns(CleanRun) || (t.outcome == Throws && t.avoidAsked))
    && (t.outcome == Returns(StillFailing) ==> Failed(last, env) && n + |t.runs| - 1 == MaxRuns)
    && (t.outcome == Returns(NoFix) ==> Failed(last, env) && n + |t.runs| - 1 < MaxRuns)
    && (t.outcome == Returns(CleanRun) ==> Clean(last, env))
    && t.outcome != Returns(NoJson)
  }

  lemma {:induction false} CascadeLastRun(n: nat, code: JString, messages: seq<ChatMessage>, env: MainimEnv)
    requires 1 <= n <= MaxRuns
    ensures EndsAsLastRun(CascadeFrom(n, code, messages, env), n, env)
    decreases MaxRuns - n
  {
    var t := CascadeFrom(n, code, messages, env);
    if Failed(code, env) && n < MaxRuns {
      assert t == Regenerate(n, code, StdErr(code, env), messages, env);
      var pair := FailurePair(code, FixRequest, StdErr(code, env));
      var fixed := GenManimCode(env.codeModel(messages + pair), env.parse);
      if fixed.Returns? && fixed.value.Some? {
        var rest := CascadeFrom(n + 1, fixed.value.value, messages + pair, env);
        CascadeLastRun(n + 1, fixed.value.value, messages + pair, env);
        LastRunCons(code, rest, t, n, env);
        return;
      }
    }
    assert t.runs == [code];
  }

  /** A failing run before the rounds after it keeps `EndsAsLastRun`. */
  lemma LastRunCons(code: JString, rest: Cascade, t: Cascade, n: nat, env: MainimEnv)
    requires EndsAsLastRun(rest, n + 1, env)
    requires t.outcome == rest.outcome && t.runs == [code] + rest.runs && t.avoidAsked == rest.avoidAsked
    ensures EndsAsLastRun(t, n, env)
  {
    LastOfCons(code, rest.runs);
  }

  /** The avoid-error prompt is requested exactly when the third execution is
      the first clean one. */
  lemma {:induction false} CascadeAvoidAsked(n: nat, code: JString, messages: seq<ChatMessage>, env: MainimEnv)
    requires 1 <= n <= MaxRuns
    ensures var t := CascadeFrom(n, code, messages, env);
      t.runs != [] &&
      (t.avoidAsked <==> n + |t.runs| - 1 == 3 && Clean(t.runs[|t.runs| - 1], env))
    decreases MaxRuns - n
  {
    if Failed(code, env) && n < MaxRuns {
      var pair := FailurePair(code, FixRequest, StdErr(code, env));
      var fixed := GenManimCode(env.codeModel(messages + pair), env.parse);
      if fixed.Returns? && fixed.value.Some? {
        var rest := CascadeFrom(n + 1, fixed.value.value, messages + pair, env);
        CascadeAvoidAsked(n + 1, fixed.value.value, messages + pair, env);
        LastOfCons(code, rest.runs);
      }
    }
  }

  /** The fix requests for the failing runs `runs`, in order. */
  function FixPairs(runs: seq<JString>, env: MainimEnv): seq<ChatMessage>
    decreases |runs|
  {
    if runs == [] then [] else FailurePair(runs[0], FixRequest, StdErr(runs[0], env)) + FixPairs(runs[1..], env)
  }

  lemma {:induction false} FixPairsLength(runs: seq<JString>, env: MainimEnv)
    ensures |FixPairs(runs, env)| == 2 * |runs|
    decreases |runs|
  {
    if runs != [] {
      FixPairsLength(runs[1..], env);
    }
  }

  /** The cascade, whose last run was `last`, ended on a regeneration request
      that gave null or threw. */
  predicate EndsOnRegeneration(t: Cascade, last: JString, env: MainimEnv)
  {
    t.outcome == Returns(NoFix) || (t.outcome == Throws && !t.avoidAsked && Ran(last, env))
  }

  /** The messages the last run adds: the avoid request, the last fix request, or none. */
  function Closing(t: Cascade, last: JString, env: MainimEnv): seq<ChatMessage>
  {
    if t.avoidAsked then FailurePair(last, AvoidAsk, StdErr(last, env))
    else if EndsOnRegeneration(t, last, env) then FailurePair(last, FixRequest, StdErr(last, env))
    else []
  }

  lemma FixPairsCons(code: JString, front: seq<JString>, env: MainimEnv)
    ensures FixPairs([code] + front, env) == FailurePair(code, FixRequest, StdErr(code, env)) + FixPairs(front, env)
  {
    assert ([code] + front)[1..] == front;
  }

  lemma DropLastOfCons<T>(c: T, s: seq<T>)
    requires s != []
    ensures ([c] + s)[..|[c] + s| - 1] == [c] + s[..|s| - 1]
  {
  }

  /** The message layout of a cascade whose runs are `runs`. */
  predicate Layout(t: Cascade, env: MainimEnv)
  {
    t.runs != [] && t.appended == FixPairs(t.runs[..|t.runs| - 1], env) + Closing(t, t.runs[|t.runs| - 1], env)
  }

  /** A failing run followed by its fix request keeps the layout. */
  lemma LayoutCons(code: JString, rest: Cascade, env: MainimEnv)
    requires Layout(rest, env)
    ensures Layout(Cascade(rest.outcome, [code] + rest.runs,
                           FailurePair(code, FixRequest, StdErr(code, env)) + rest.appended, rest.avoidAsked), env)
  {
    var pair := FailurePair(code, FixRequest, StdErr(code, env));
    var front := rest.runs[..|rest.runs| - 1];
    LastOfCons(code, rest.runs);
    DropLastOfCons(code, rest.runs);
    FixPairsCons(code, front, env);
    AppendAssoc(pair, FixPairs(front, env), Closing(rest, rest.runs[|rest.runs| - 1], env));
  }

  /** Each failing run that is followed by another gets the model/user fix pair,
      in order, and the last run adds only its closing pair. */
  lemma {:induction false} CascadeMessages(n: nat, code: JString, messages: seq<ChatMessage>, env: MainimEnv)
    requires 1 <= n <= MaxRuns
    ensures Layout(CascadeFrom(n, code, messages, env), env)
    decreases MaxRuns - n
  {
    var err := StdErr(code, env);
    assert [code][..0] == [];
    if Failed(code, env) && n < MaxRuns {
      var pair := FailurePair(code, FixRequest, err);
      var fixed := GenManimCode(env.codeModel(messages + pair), env.parse);
      if fixed.Returns? && fixed.value.Some? {
        CascadeMessages(n + 1, fixed.value.value, messages + pair, env);
        LayoutCons(code, CascadeFrom(n + 1, fixed.value.value, messages + pair, env), env);
      } else {
        AppendEmpty(pair);
      }
    }
  }

  /** For a reply that is a fenced JSON block, `genManimCode` parses exactly its body. */
  lemma GenManimCodeFenced(prefix: string, body: string, parse: seq<CodeUnit> -> JsonParse)
    requires IndexOf(prefix + JsonFence, JsonFence) == |prefix|
    ensures GenManimCode(Generated(Some(prefix + JsonFence + body + Fence)), parse) == match parse(Utf16(body))
      case ParsedTool(code) => Returns(Some(code))
      case ParsedNull => Returns(None)
      case ParseError => Throws
  {
    FencedJsonBody(prefix, body);
  }

  /** `index` stops without an exception and before any execution exactly when
      the first reply has no "```json"; with no execution, nothing is appended. */
  lemma IndexNoJson(generatedText: JString, env: MainimEnv)
    ensures var c := IndexAfterScene(generatedText, env);
      c.outcome == Returns(NoJson) <==>
        (env.codeModel([SceneMessage(generatedText)]).Generated? && env.codeModel([SceneMessage(generatedText)]).text.Some?
         && IndexOf(env.codeModel([SceneMessage(generatedText)]).text.value, JsonFence) == -1)
    ensures var c := IndexAfterScene(generatedText, env);
      c.runs == [] ==> c.appended == [] && (c.outcome == Returns(NoJson) || c.outcome == Throws)
    ensures var c := IndexAfterScene(generatedText, env);
      c.outcome == Returns(NoJson) ==> c.runs == [] && c.appended == []
  {
    var first := [SceneMessage(generatedText)];
    var reply := env.codeModel(first);
    if reply.Generated? && reply.text.Some? {
      SliceJsonCases(reply.text.value);
      var json := SliceJson(reply.text.value);
      if json.Sliced? && env.parse(json.json).ParsedTool? {
        CascadeLastRun(1, env.parse(json.json).code, first, env);
      }
    }
  }

  /** The cascade `index` runs on the first ToolVo, when it gets that far. */
  predicate Cascades(generatedText: JString, env: MainimEnv, code: JString)
  {
    var reply := env.codeModel([SceneMessage(generatedText)]);
    && reply.Generated? && reply.text.Some?
    && SliceJson(reply.text.value).Sliced?
    && env.parse(SliceJson(reply.text.value).json) == ParsedTool(code)
  }

  lemma IndexCascades(generatedText: JString, env: MainimEnv)
    ensures (exists code :: Cascades(generatedText, env, code)) || IndexAfterScene(generatedText, env).runs == []
    ensures forall code :: Cascades(generatedText, env, code) ==>
      IndexAfterScene(generatedText, env) == CascadeFrom(1, code, [SceneMessage(generatedText)], env)
  {
    var reply := env.codeModel([SceneMessage(generatedText)]);
    if reply.Generated? && reply.text.Some? && SliceJson(reply.text.value).Sliced? {
      var parsed := env.parse(SliceJson(reply.text.value).json);
      if parsed.ParsedTool? {
        assert Cascades(generatedText, env, parsed.code);
      }
    }
  }

  /** At most eleven executions; every execution but the last failed, and
      eleven failures are what `StillFailing` means. */
  lemma IndexRuns(generatedText: JString, env: MainimEnv)
    ensures var c := IndexAfterScene(generatedText, env);
      && |c.runs| <= MaxRuns
      && EarlierFailed(c.runs, env)
      && (c.outcome == Returns(StillFailing) ==> |c.runs| == MaxRuns)
      && (c.outcome == Returns(CleanRun) ==> c.runs != [] && Clean(c.runs[|c.runs| - 1], env))
  {
    IndexCascades(generatedText, env);
    if code :| Cascades(generatedText, env, code) {
      CascadeBounded(1, code, [SceneMessage(generatedText)], env);
      CascadeEarlierFailed(1, code, [SceneMessage(generatedText)], env);
      CascadeLastRun(1, code, [SceneMessage(generatedText)], env);
    }
  }

  /** The avoid-error prompt is requested exactly when executions one and two
      failed and execution three was clean. */
  lemma IndexAvoidAsked(generatedText: JString, env: MainimEnv)
    ensures var c := IndexAfterScene(generatedText, env);
      c.avoidAsked <==>
        && |c.runs| == 3 && Clean(c.runs[2], env) && Failed(c.runs[0], env) && Failed(c.runs[1], env)
  {
    IndexCascades(generatedText, env);
    if code :| Cascades(generatedText, env, code) {
      CascadeEarlierFailed(1, code, [SceneMessage(generatedText)], env);
      CascadeAvoidAsked(1, code, [SceneMessage(generatedText)], env);
    }
  }

  /** Two messages for each fix request and for the avoid request, nothing else. */
  lemma IndexMessageCount(generatedText: JString, env: MainimEnv)
    ensures var c := IndexAfterScene(generatedText, env);
      c.runs != [] ==> |c.appended| == 2 * (|c.runs| - 1) + (if c.avoidAsked || EndsOnRegeneration(c, c.runs[|c.runs| - 1], env) then 2 else 0)
  {
    IndexCascades(generatedText, env);
    if code :| Cascades(generatedText, env, code) {
      var c := CascadeFrom(1, code, [SceneMessage(generatedText)], env);
      CascadeMessages(1, code, [SceneMessage(generatedText)], env);
      FixPairsLength(c.runs[..|c.runs| - 1], env);
    }
  }
}
