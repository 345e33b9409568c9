/**
 * `runDebate`: the fixed five-call pipeline. The completion service is an
 * oracle behind a client object that records every request it receives, and
 * `JSON.parse` is an abstract partial parser.
 */
module Debate {
  import opened Wrappers
  import opened Sanitizer
  import opened Response

  /** The model used when neither the options nor the environment name one. */
  const FallbackModel: string := "claude-3-7-sonnet-latest"

  /** The process environment: the API key and the model override, if set. */
  datatype Env = Env(apiKey: Option<string>, anthropicModel: Option<string>)

  datatype Options = Options(model: Option<string>)

  /** An environment variable is set when it is present and not empty. */
  predicate IsSet(v: Option<string>) {
    v.Some? && v.value != []
  }

  predicate HasApiKey(env: Env) {
    IsSet(env.apiKey)
  }

  /** `DEFAULT_MODEL`: the environment's model, else the fallback. */
  function DefaultModel(env: Env): (m: string)
    ensures m != []
    ensures IsSet(env.anthropicModel) ==> m == env.anthropicModel.value
    ensures !IsSet(env.anthropicModel) ==> m == FallbackModel
  {
    if IsSet(env.anthropicModel) then env.anthropicModel.value else FallbackModel
  }

  /** `options.model || DEFAULT_MODEL`. */
  function ChooseModel(options: Options, env: Env): (m: string)
    ensures m != []
    ensures IsSet(options.model) ==> m == options.model.value
    ensures !IsSet(options.model) ==> m == DefaultModel(env)
  {
    if IsSet(options.model) then options.model.value else DefaultModel(env)
  }

  datatype Side = For | Against

  datatype Stage = LedgerStage | PromptStage(side: Side) | EvaluationStage(side: Side)

  /** The order in which the pipeline calls the service. */
  const StageOrder: seq<Stage> := [
    LedgerStage,
    PromptStage(For), PromptStage(Against),
    EvaluationStage(For), EvaluationStage(Against)]

  /**
   * One request to the completion service, described by the structured
   * values its prompt embeds (the template text itself is not modelled).
   */
  datatype Request =
    | LedgerRequest(model: string, payload: DebateRequest)
    | PromptRequest(model: string, ledger: Json, side: Side)
    | EvaluationRequest(model: string, generatedPrompt: Option<Json>, side: Side)
  {
    function Stage(): Stage {
      match this
      case LedgerRequest(_, _) => LedgerStage
      case PromptRequest(_, _, side) => PromptStage(side)
      case EvaluationRequest(_, _, side) => EvaluationStage(side)
    }
  }

  /** What the service does with one request: a message, or a transport error. */
  datatype Reply = Delivered(message: Message) | TransportFailure(reason: string)

  /** The service: its reply to a request, given the requests made before it. */
  type Oracle = (seq<Request>, Request) -> Reply

  /** `JSON.parse`: a value, or `None` where it throws. */
  type Parser = string -> Option<Json>

  datatype DebateError =
    | MissingIdea
    | MissingApiKey
    | Transport(reason: string)
    | MalformedJson(text: string)
    | NullPrompt(side: Side)

  /** One agent step after the call: extract the text and parse it. */
  function Answer(reply: Reply, parse: Parser): Result<Json, DebateError> {
    match reply
    case TransportFailure(reason) => Failure(Transport(reason))
    case Delivered(message) =>
      var text := ExtractText(message);
      match parse(text)
      case None => Failure(MalformedJson(text))
      case Some(v) => Success(v)
  }

  /**
   * An answer is the parsed extracted text; a transport error or a text the
   * parser rejects is reported as such, with the text that failed to parse.
   */
  lemma AnswerCases(reply: Reply, parse: Parser)
    ensures var r := Answer(reply, parse);
      && (reply.TransportFailure? ==> r == Failure(Transport(reply.reason)))
      && (reply.Delivered? ==>
            && (r.Success? <==> parse(ExtractText(reply.message)).Some?)
            && (r.Success? ==> r.value == parse(ExtractText(reply.message)).value)
            && (r.Failure? ==> r.error == MalformedJson(ExtractText(reply.message))))
  {
  }

  /**
   * Reading `generatedPrompt` off a parsed value: `null` throws, an object
   * gives its member if it has one, anything else gives `undefined`.
   */
  function GeneratedPrompt(v: Json, side: Side): Result<Option<Json>, DebateError> {
    match v
    case JNull => Failure(NullPrompt(side))
    case JObject(members) =>
      if "generatedPrompt" in members then Success(Some(members["generatedPrompt"])) else Success(None)
    case _ => Success(None)
  }

  /**
   * Only `null` makes the read fail; otherwise the prompt is present exactly
   * when the value is an object with a `generatedPrompt` member.
   */
  lemma GeneratedPromptCases(v: Json, side: Side)
    ensures var r := GeneratedPrompt(v, side);
      && (r.Failure? <==> v == JNull)
      && (r.Failure? ==> r.error == NullPrompt(side))
      && (r.Success? ==> (r.value.Some? <==> v.JObject? && "generatedPrompt" in v.members))
      && (r.Success? && r.value.Some? ==> r.value.value == v.members["generatedPrompt"])
  {
  }

  /** The service seen through one agent step: the parsed answer to a request, given the requests before it. */
  type Agent = (seq<Request>, Request) -> Result<Json, DebateError>

  function AgentOf(oracle: Oracle, parse: Parser): Agent {
    (history: seq<Request>, req: Request) => Answer(oracle(history, req), parse)
  }

  /** The answer to the `i`-th of the recorded calls. */
  function AnswerAt(agent: Agent, calls: seq<Request>, i: nat): Result<Json, DebateError>
    requires i < |calls|
  {
    agent(calls[..i], calls[i])
  }

  datatype DebateRun = DebateRun(side: Side, generatedPrompt: Option<Json>, evaluation: Json)

  datatype DebateResult = DebateResult(
    input: DebateRequest,
    model: string,
    evidenceLedger: Json,
    debateRuns: seq<DebateRun>)

  /** The completion client: forwards each request to the service and logs it. */
  class CompletionClient {
    const apiKey: string
    const oracle: Oracle
    var log: seq<Request>

    constructor (apiKey: string, oracle: Oracle)
      ensures this.apiKey == apiKey && this.oracle == oracle
      ensures log == []
    {
      this.apiKey := apiKey;
      this.oracle := oracle;
      log := [];
    }

    /** `messages.create`. */
    method Create(req: Request) returns (reply: Reply)
      modifies this
      ensures log == old(log) + [req]
      ensures reply == oracle(old(log), req)
    {
      reply := oracle(log, req);
      log := log + [req];
    }
  }

  /** One schema-constrained agent step: call, extract the text, parse it. */
  method AskAgent(client: CompletionClient, req: Request, parse: Parser) returns (r: Result<Json, DebateError>)
    modifies client
    ensures client.log == old(client.log) + [req]
    ensures r == AgentOf(client.oracle, parse)(old(client.log), req)
  {
    var reply := client.Create(req);
    r := Answer(reply, parse);
  }

  method GenerateEvidenceLedger(client: CompletionClient, model: string, payload: DebateRequest, parse: Parser)
    returns (r: Result<Json, DebateError>)
    modifies client
    ensures client.log == old(client.log) + [LedgerRequest(model, payload)]
    ensures r == AgentOf(client.oracle, parse)(old(client.log), LedgerRequest(model, payload))
  {
    r := AskAgent(client, LedgerRequest(model, payload), parse);
  }

  method GenerateEvaluationPrompt(client: CompletionClient, model: string, ledger: Json, side: Side, parse: Parser)
    returns (r: Result<Json, DebateError>)
    modifies client
    ensures client.log == old(client.log) + [PromptRequest(model, ledger, side)]
    ensures r == AgentOf(client.oracle, parse)(old(client.log), PromptRequest(model, ledger, side))
  {
    r := AskAgent(client, PromptRequest(model, ledger, side), parse);
  }

  method RunEvaluation(client: CompletionClient, model: string, generatedPrompt: Option<Json>, side: Side, parse: Parser)
    returns (r: Result<Json, DebateError>)
    modifies client
    ensures client.log == old(client.log) + [EvaluationRequest(model, generatedPrompt, side)]
    ensures r == AgentOf(client.oracle, parse)(old(client.log), EvaluationRequest(model, generatedPrompt, side))
  {
    r := AskAgent(client, EvaluationRequest(model, generatedPrompt, side), parse);
  }

  /**
   * The calls were made in pipeline order, each fed what the calls before it
   * answered, and every call but the last was answered.
   */
  predicate Chained(calls: seq<Request>, payload: DebateRequest, model: string, agent: Agent) {
    && |calls| <= |StageOrder|
    && (forall i :: 0 <= i < |calls| ==> calls[i].Stage() == StageOrder[i] && calls[i].model == model)
    && (forall i :: 0 <= i < |calls| - 1 ==> AnswerAt(agent, calls, i).Success?)
    && (|calls| > 0 ==> calls[0] == LedgerRequest(model, payload))
    && (|calls| > 1 ==> calls[1].ledger == AnswerAt(agent, calls, 0).value)
    && (|calls| > 2 ==> calls[2].ledger == AnswerAt(agent, calls, 0).value)
    && (|calls| > 3 ==> Success(calls[3].generatedPrompt) == GeneratedPrompt(AnswerAt(agent, calls, 1).value, For))
    && (|calls| > 4 ==> Success(calls[4].generatedPrompt) == GeneratedPrompt(AnswerAt(agent, calls, 2).value, Against))
  }

  /** What a run produced: its outcome and the calls it made, in order. */
  datatype Run = Run(result: Result<DebateResult, DebateError>, calls: seq<Request>)

  /**
   * The five calls of a valid run, stage by stage: ledger, prompt for, prompt
   * against, evaluation for, evaluation against. Each call sees the requests
   * made before it; the first failure ends the run.
   */
  function Pipeline(payload: DebateRequest, model: string, agent: Agent): Run {
    var c0 := LedgerRequest(model, payload);
    var a0 := agent([], c0);
    if a0.Failure? then Run(Failure(a0.error), [c0]) else
    var c1 := PromptRequest(model, a0.value, For);
    var a1 := agent([c0], c1);
    if a1.Failure? then Run(Failure(a1.error), [c0, c1]) else
    var c2 := PromptRequest(model, a0.value, Against);
    var a2 := agent([c0, c1], c2);
    if a2.Failure? then Run(Failure(a2.error), [c0, c1, c2]) else
    var g1 := GeneratedPrompt(a1.value, For);
    if g1.Failure? then Run(Failure(g1.error), [c0, c1, c2]) else
    var c3 := EvaluationRequest(model, g1.value, For);
    var a3 := agent([c0, c1, c2], c3);
    if a3.Failure? then Run(Failure(a3.error), [c0, c1, c2, c3]) else
    var g2 := GeneratedPrompt(a2.value, Against);
    if g2.Failure? then Run(Failure(g2.error), [c0, c1, c2, c3]) else
    var c4 := EvaluationRequest(model, g2.value, Against);
    var a4 := agent([c0, c1, c2, c3], c4);
    if a4.Failure? then Run(Failure(a4.error), [c0, c1, c2, c3, c4]) else
    Run(Success(DebateResult(payload, model, a0.value,
                             [DebateRun(For, g1.value, a3.value), DebateRun(Against, g2.value, a4.value)])),
        [c0, c1, c2, c3, c4])
  }

  /**
   * `runDebate`, with the service and the parser as parameters. `client` is
   * the completion client the run created, with its request log; there is
   * none when the input or the key check fails.
   */
  method RunDebate(input: RawInput, options: Options, env: Env, oracle: Oracle, parse: Parser)
    returns (r: Result<DebateResult, DebateError>, client: CompletionClient?)
    ensures SanitizeInput(input).idea == [] ==> r == Failure(MissingIdea) && client == null
    ensures SanitizeInput(input).idea != [] && !HasApiKey(env) ==> r == Failure(MissingApiKey) && client == null
    ensures SanitizeInput(input).idea != [] && HasApiKey(env) ==>
              && client != null && fresh(client)
              && client.apiKey == env.apiKey.value && client.oracle == oracle
              && Run(r, client.log) == Pipeline(SanitizeInput(input), ChooseModel(options, env), AgentOf(oracle, parse))
  {
    var payload := SanitizeInput(input);
    if payload.idea == [] {
      return Failure(MissingIdea), null;
    }
    if !HasApiKey(env) {
      return Failure(MissingApiKey), null;
    }
    client := new CompletionClient(env.apiKey.value, oracle);
    var model := ChooseModel(options, env);
    r := RunStages(client, model, payload, parse);
  }

  /** The five agent steps of `runDebate`, on a fresh client. */
  method RunStages(client: CompletionClient, model: string, payload: DebateRequest, parse: Parser)
    returns (r: Result<DebateResult, DebateError>)
    requires client.log == []
    modifies client
    ensures Run(r, client.log) == Pipeline(payload, model, AgentOf(client.oracle, parse))
  {
    ghost var c0 := LedgerRequest(model, payload);
    var evidenceLedger := GenerateEvidenceLedger(client, model, payload, parse);
    assert client.log == [c0];
    if evidenceLedger.Failure? {
      return Failure(evidenceLedger.error);
    }
    ghost var c1 := PromptRequest(model, evidenceLedger.value, For);
    var promptFor := GenerateEvaluationPrompt(client, model, evidenceLedger.value, For, parse);
    assert client.log == [c0, c1];
    if promptFor.Failure? {
      return Failure(promptFor.error);
    }
    ghost var c2 := PromptRequest(model, evidenceLedger.value, Against);
    var promptAgainst := GenerateEvaluationPrompt(client, model, evidenceLedger.value, Against, parse);
    assert client.log == [c0, c1, c2];
    if promptAgainst.Failure? {
      return Failure(promptAgainst.error);
    }

    var generatedFor := GeneratedPrompt(promptFor.value, For);
    if generatedFor.Failure? {
      return Failure(generatedFor.error);
    }
    ghost var c3 := EvaluationRequest(model, generatedFor.value, For);
    var evaluationFor := RunEvaluation(client, model, generatedFor.value, For, parse);
    assert client.log == [c0, c1, c2, c3];
    if evaluationFor.Failure? {
      return Failure(evaluationFor.error);
    }
    var generatedAgainst := GeneratedPrompt(promptAgainst.value, Against);
    if generatedAgainst.Failure? {
      return Failure(generatedAgainst.error);
    }
    ghost var c4 := EvaluationRequest(model, generatedAgainst.value, Against);
    var evaluationAgainst := RunEvaluation(client, model, generatedAgainst.value, Against, parse);
    assert client.log == [c0, c1, c2, c3, c4];
    if evaluationAgainst.Failure? {
      return Failure(evaluationAgainst.error);
    }

    r := Success(DebateResult(
      payload,
      model,
      evidenceLedger.value,
      [DebateRun(For, generatedFor.value, evaluationFor.value),
       DebateRun(Against, generatedAgainst.value, evaluationAgainst.value)]));
  }

  /** The calls of every run follow the pipeline order and chain their inputs. */
  lemma PipelineChained(payload: DebateRequest, model: string, agent: Agent)
    ensures Chained(Pipeline(payload, model, agent).calls, payload, model, agent)
  {
    var calls := Pipeline(payload, model, agent).calls;
    var c0 := LedgerRequest(model, payload);
    var a0 := agent([], c0);
    assert calls[..0] == [] && calls[0] == c0;
    if a0.Failure? { return; }
    var c1 := PromptRequest(model, a0.value, For);
    var a1 := agent([c0], c1);
    assert calls[..1] == [c0] && calls[1] == c1;
    if a1.Failure? { return; }
    var c2 := PromptRequest(model, a0.value, Against);
    var a2 := agent([c0, c1], c2);
    assert calls[..2] == [c0, c1] && calls[2] == c2;
    var g1 := GeneratedPrompt(a1.value, For);
    if a2.Failure? || g1.Failure? { return; }
    var c3 := EvaluationRequest(model, g1.value, For);
    var a3 := agent([c0, c1, c2], c3);
    assert calls[..3] == [c0, c1, c2] && calls[3] == c3;
    var g2 := GeneratedPrompt(a2.value, Against);
    if a3.Failure? || g2.Failure? { return; }
    var c4 := EvaluationRequest(model, g2.value, Against);
    assert calls[..4] == [c0, c1, c2, c3] && calls[4] == c4;
  }

  /**
   * A failed run reports the failure of its last call, or, when that call was
   * answered, the `null` prompt read just before the next evaluation.
   */
  lemma PipelineFailure(payload: DebateRequest, model: string, agent: Agent)
    ensures var run := Pipeline(payload, model, agent);
      run.result.Failure? ==>
        var calls := run.calls;
        var last := AnswerAt(agent, calls, |calls| - 1);
        || (last.Failure? && run.result.error == last.error)
        || (|calls| == 3 && run.result.error == NullPrompt(For) && AnswerAt(agent, calls, 1) == Success(JNull))
        || (|calls| == 4 && run.result.error == NullPrompt(Against) && AnswerAt(agent, calls, 2) == Success(JNull))
  {
    var calls := Pipeline(payload, model, agent).calls;
    var c0 := LedgerRequest(model, payload);
    var a0 := agent([], c0);
    assert calls[..0] == [] && calls[0] == c0;
    if a0.Failure? { return; }
    var c1 := PromptRequest(model, a0.value, For);
    var a1 := agent([c0], c1);
    assert calls[..1] == [c0] && calls[1] == c1;
    if a1.Failure? { return; }
    var c2 := PromptRequest(model, a0.value, Against);
    var a2 := agent([c0, c1], c2);
    assert calls[..2] == [c0, c1] && calls[2] == c2;
    var g1 := GeneratedPrompt(a1.value, For);
    if a2.Failure? || g1.Failure? { return; }
    var c3 := EvaluationRequest(model, g1.value, For);
    var a3 := agent([c0, c1, c2], c3);
    assert calls[..3] == [c0, c1, c2] && calls[3] == c3;
    var g2 := GeneratedPrompt(a2.value, Against);
    if a3.Failure? || g2.Failure? { return; }
    var c4 := EvaluationRequest(model, g2.value, Against);
    assert calls[..4] == [c0, c1, c2, c3] && calls[4] == c4;
  }

  /**
   * A successful run made all five calls and returns the sanitised input, the
   * model, the ledger, and one run per side, `for` then `against`, each
   * pairing the prompt its evaluation was given with that evaluation.
   */
  lemma PipelineSuccess(payload: DebateRequest, model: string, agent: Agent)
    ensures var run := Pipeline(payload, model, agent);
      run.result.Success? ==>
        var calls := run.calls;
        && |calls| == 5
        && (forall i :: 0 <= i < 5 ==> AnswerAt(agent, calls, i).Success?)
        && run.result.value.input == payload
        && run.result.value.model == model
        && run.result.value.evidenceLedger == AnswerAt(agent, calls, 0).value
        && run.result.value.debateRuns == [
             DebateRun(For, calls[3].generatedPrompt, AnswerAt(agent, calls, 3).value),
             DebateRun(Against, calls[4].generatedPrompt, AnswerAt(agent, calls, 4).value)]
  {
    var calls := Pipeline(payload, model, agent).calls;
    var c0 := LedgerRequest(model, payload);
    var a0 := agent([], c0);
    if a0.Failure? { return; }
    var c1 := PromptRequest(model, a0.value, For);
    var a1 := agent([c0], c1);
    if a1.Failure? { return; }
    var c2 := PromptRequest(model, a0.value, Against);
    var a2 := agent([c0, c1], c2);
    var g1 := GeneratedPrompt(a1.value, For);
    if a2.Failure? || g1.Failure? { return; }
    var c3 := EvaluationRequest(model, g1.value, For);
    var a3 := agent([c0, c1, c2], c3);
    var g2 := GeneratedPrompt(a2.value, Against);
    if a3.Failure? || g2.Failure? { return; }
    var c4 := EvaluationRequest(model, g2.value, Against);
    var a4 := agent([c0, c1, c2, c3], c4);
    if a4.Failure? { return; }
    assert calls == [c0, c1, c2, c3, c4];
    assert calls[..0] == [] && calls[..1] == [c0] && calls[..2] == [c0, c1];
    assert calls[..3] == [c0, c1, c2] && calls[..4] == [c0, c1, c2, c3];
    assert AnswerAt(agent, calls, 0) == a0 && AnswerAt(agent, calls, 1) == a1 && AnswerAt(agent, calls, 2) == a2;
    assert AnswerAt(agent, calls, 3) == a3 && AnswerAt(agent, calls, 4) == a4;
  }

  /**
   * When every step is answered with parsed JSON other than `null`, the run
   * makes all five calls and succeeds.
   */
  lemma PipelineCompletes(payload: DebateRequest, model: string, agent: Agent)
    requires forall history, req :: agent(history, req).Success? && agent(history, req).value != JNull
    ensures Pipeline(payload, model, agent).result.Success?
    ensures |Pipeline(payload, model, agent).calls| == 5
  {
  }
}
