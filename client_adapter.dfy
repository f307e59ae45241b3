/** The current adapter: translates OpenAI-style completion and chat
    completion calls into Llama Stack inference calls and back. */
module ClientAdapter {
  import opened Python
  import opened Json
  import opened Strings
  import opened Sequences
  import opened LlamaStack
  import opened OpenAI

  // ---------------------------------------------------------------------
  // Stop reasons

  /** The backend stop reasons that have an OpenAI finish reason. */
  const StopReasonTable: map<string, string> :=
    map["end_of_turn" := "stop", "end_of_message" := "stop", "out_of_tokens" := "length"]

  /** `_map_stop_reason`: a total lookup; unknown codes give the empty reason. */
  function MapStopReason(code: string): (reason: string)
    ensures code == "end_of_turn" || code == "end_of_message" ==> reason == "stop"
    ensures code == "out_of_tokens" ==> reason == "length"
    ensures reason == "" <==> code !in {"end_of_turn", "end_of_message", "out_of_tokens"}
  {
    if code in StopReasonTable then StopReasonTable[code] else ""
  }

  // ---------------------------------------------------------------------
  // Request side

  /** A prompt that is not a list is wrapped in a one-element list; a list is
      used as it is. */
  function NormalizePrompts(prompt: PromptArg): (prompts: seq<Option<string>>)
    ensures prompt.Single? ==> prompts == [prompt.prompt]
    ensures prompt.Batch? ==> prompts == prompt.prompts
  {
    match prompt
    case Single(p) => [p]
    case Batch(ps) => ps
  }

  /** `kwargs.get("model", None)`. */
  function ModelIdOf(req: CompletionRequest): Option<string> {
    Get(req.model, None)
  }

  /** The normalised `kwargs.get("prompt", None)`. */
  function PromptsOf(req: CompletionRequest): seq<Option<string>> {
    NormalizePrompts(Get(req.prompt, Single(None)))
  }

  /** `range(0, n)` runs `max(n, 0)` times. */
  function SampleCount(n: Kwarg<int>): (count: nat)
    ensures count == 0 <==> Get(n, 1) <= 0
    ensures count > 0 ==> count == Get(n, 1)
  {
    var v := Get(n, 1);
    if v > 0 then v else 0
  }

  /** The sampling parameters sent to the backend: `max_tokens` only when it
      is truthy, and then unchanged; a top-p strategy with the caller's
      temperature and `top_p` 1.0 only when the temperature is truthy. */
  function SamplingParamsFor(maxTokens: Option<int>, temperature: Option<real>): (params: SamplingParams)
    ensures params.maxTokens.Some? <==> IntTruthy(maxTokens)
    ensures params.maxTokens.Some? ==> params.maxTokens == maxTokens
    ensures params.strategy.Some? <==> RealTruthy(temperature)
    ensures params.strategy.Some? ==> params.strategy.value == TopP(temperature.value, 1.0)
  {
    SamplingParams(
      if IntTruthy(maxTokens) then maxTokens else None,
      if RealTruthy(temperature) then Some(TopP(temperature.value, 1.0)) else None)
  }

  /** Fills an empty `SamplingParams()` one key at a time, as the source does. */
  method BuildSamplingParams(maxTokens: Option<int>, temperature: Option<real>) returns (params: SamplingParams)
    ensures params == SamplingParamsFor(maxTokens, temperature)
  {
    params := EmptySamplingParams;
    if IntTruthy(maxTokens) {
      params := params.(maxTokens := maxTokens);
    }
    if RealTruthy(temperature) {
      params := params.(strategy := Some(TopP(temperature.value, 1.0)));
    }
  }

  /** The anchored alternation `^(c1|c2|...)$` over the allowed strings. */
  function GuidedChoicePattern(choices: seq<string>): string {
    "^(" + Join('|', choices) + ")$"
  }

  /** The alternatives a pattern built by `GuidedChoicePattern` lists. */
  function PatternAlternatives(pattern: string): seq<string>
    requires |pattern| >= 4
  {
    Split('|', pattern[2..|pattern| - 2])
  }

  /** The response format for `extra_body["guided_choice"]`: none when the
      list is empty, otherwise a JSON schema for an array of exactly one
      string matching the anchored alternation of the choices. */
  function GuidedChoiceFormat(choices: seq<string>): (format: Option<ResponseFormat>)
    ensures format.None? <==> choices == []
    ensures format.Some? ==>
      && format.value.formatType == "json_schema"
      && format.value.jsonSchema.schemaType == "array"
      && format.value.jsonSchema.minItems == 1
      && format.value.jsonSchema.maxItems == 1
      && format.value.jsonSchema.items.itemType == "string"
      && format.value.jsonSchema.items.pattern == GuidedChoicePattern(choices)
  {
    if choices == [] then None
    else
      Some(ResponseFormat("json_schema",
        ArraySchema("array", 1, 1, ItemSchema("string", GuidedChoicePattern(choices)))))
  }

  /** Every allowed string occurs in the pattern. */
  lemma {:induction false} PatternContainsChoice(choices: seq<string>, k: nat)
    requires k < |choices|
    ensures IsInfix(choices[k], GuidedChoicePattern(choices))
  {
    JoinContainsPart('|', choices, k);
    InfixOfAppend(choices[k], "^(", Join('|', choices), ")$");
  }

  /** When no allowed string contains `|`, the alternatives of the pattern are
      exactly the allowed strings, in order. */
  lemma {:induction false} PatternRecoversChoices(choices: seq<string>)
    requires |choices| >= 1
    requires forall k :: 0 <= k < |choices| ==> '|' !in choices[k]
    ensures |GuidedChoicePattern(choices)| >= 4
    ensures PatternAlternatives(GuidedChoicePattern(choices)) == choices
  {
    var body := Join('|', choices);
    var pattern := GuidedChoicePattern(choices);
    assert pattern[2..|pattern| - 2] == body;
    SplitJoin('|', choices);
  }

  /** The strings are not escaped: an allowed string holding `|` turns into
      several alternatives, so the schema admits strings that were not among
      the choices. */
  lemma {:induction false} PatternSplitsChoiceWithBar()
    ensures PatternAlternatives(GuidedChoicePattern(["yes|no"])) == ["yes", "no"]
  {
    var pattern := GuidedChoicePattern(["yes|no"]);
    assert Join('|', ["yes|no"]) == "yes|no";
    assert pattern[2..|pattern| - 2] == "yes" + ['|'] + "no";
    SplitAfterPart('|', "yes", "no");
    SplitWithoutSeparator('|', "no");
  }

  // ---------------------------------------------------------------------
  // Response side

  /** The text of a completion choice. Without guided choice it is the raw
      content. With it, a content that parses to a non-empty list gives that
      list's first element; a parse error, any other value or an empty list
      leaves the raw content, and nothing is raised. */
  function DecodeCompletionText(content: string, guided: bool, loads: Loads): (text: JsonValue)
    ensures !guided ==> text == JString(content)
    ensures guided && IsNonEmptyList(loads(content)) ==> text == loads(content).value.items[0]
    ensures guided && !IsNonEmptyList(loads(content)) ==> text == JString(content)
  {
    if guided && IsNonEmptyList(loads(content)) then loads(content).value.items[0]
    else JString(content)
  }

  /** A backend answer that is a one-element list holding one of the allowed
      strings, as the schema asks for, decodes to that string. */
  lemma {:induction false} GuidedAnswerDecodesToChoice(choices: seq<string>, content: string, loads: Loads, k: nat)
    requires k < |choices|
    requires loads(content) == Some(JArray([JString(choices[k])]))
    ensures DecodeCompletionText(content, choices != [], loads) == JString(choices[k])
  {
  }

  /** The choice built from one backend answer: the given index, the
      decoded text and the mapped stop reason, which is empty exactly for an
      unknown code. */
  function CompletionChoiceFor(index: int, response: CompletionResponse, guided: bool, loads: Loads): (choice: CompletionChoice)
    ensures choice.index == index
    ensures choice.text == DecodeCompletionText(response.content, guided, loads)
    ensures choice.finishReason == MapStopReason(response.stopReason)
    ensures choice.finishReason in {"stop", "length", ""}
    ensures choice.finishReason == "" <==> response.stopReason !in StopReasonTable
    ensures !guided ==> choice.text == JString(response.content)
  {
    CompletionChoice(index, DecodeCompletionText(response.content, guided, loads), MapStopReason(response.stopReason))
  }

  /** The calls of one sample: one per prompt, in prompt order. */
  function SampleRound(modelId: Option<string>, prompts: seq<Option<string>>,
                       params: SamplingParams, format: Option<ResponseFormat>): (round: seq<CompletionCall>)
    ensures |round| == |prompts|
  {
    seq(|prompts|, j requires 0 <= j < |prompts| => CompletionCall(modelId, prompts[j], params, format))
  }

  /** The calls of one sample of `req`. */
  function RoundOf(req: CompletionRequest): (round: seq<CompletionCall>)
    ensures |round| == |PromptsOf(req)|
  {
    SampleRound(ModelIdOf(req), PromptsOf(req),
      SamplingParamsFor(req.maxTokens, req.temperature), GuidedChoiceFormat(req.guidedChoice))
  }

  /** The backend calls `completions.create` makes, in order: samples in the
      outer loop, prompts in the inner one. */
  function CompletionCallsFor(req: CompletionRequest): seq<CompletionCall> {
    Repeat(RoundOf(req), SampleCount(req.n))
  }

  /** There are `n * |prompts|` calls, and call `k` sends prompt `k mod |prompts|`
      with the shared model, sampling parameters and response format. */
  lemma {:induction false} CompletionCallAt(req: CompletionRequest, k: nat)
    requires k < |CompletionCallsFor(req)|
    ensures |CompletionCallsFor(req)| == SampleCount(req.n) * |PromptsOf(req)|
    ensures |PromptsOf(req)| > 0
    ensures CompletionCallsFor(req)[k] == CompletionCall(
      ModelIdOf(req), PromptsOf(req)[k % |PromptsOf(req)|],
      SamplingParamsFor(req.maxTokens, req.temperature), GuidedChoiceFormat(req.guidedChoice))
  {
    var m := |PromptsOf(req)|;
    PositionInRound(k, SampleCount(req.n), m);
    RepeatAt(RoundOf(req), SampleCount(req.n), k / m, k % m);
  }

  /** `prompt=["test1", "test2"], max_tokens=1, n=3` makes six calls, each
      carrying `max_tokens` 1. */
  lemma {:induction false} BatchOfTwoPromptsThreeSamples(model: Option<string>, k: nat)
    requires k < 6
    ensures var req := CompletionRequest(Present(model), Present(Batch([Some("test1"), Some("test2")])),
                                         Present(3), Some(1), None, []);
      && |CompletionCallsFor(req)| == 6
      && CompletionCallsFor(req)[k].samplingParams.maxTokens == Some(1)
      && CompletionCallsFor(req)[k].modelId == model
  {
    var req := CompletionRequest(Present(model), Present(Batch([Some("test1"), Some("test2")])),
                                 Present(3), Some(1), None, []);
    CompletionCallAt(req, k);
  }

  /** The choices of sample `sample`: the `j`-th is built from the answer to
      the `j`-th call of `round`, which the client sees as its `pos + j`-th
      completion call. */
  function SampleChoices(round: seq<CompletionCall>, answer: (CompletionCall, nat) -> CompletionResponse,
                         pos: nat, sample: nat, guided: bool, loads: Loads): (choices: seq<CompletionChoice>)
    ensures |choices| == |round|
  {
    seq(|round|, j requires 0 <= j < |round| => CompletionChoiceFor(sample, answer(round[j], pos + j), guided, loads))
  }

  /** The choices of the first `samples` samples, the client having seen
      `base` completion calls before the first. */
  function RunChoices(round: seq<CompletionCall>, answer: (CompletionCall, nat) -> CompletionResponse,
                      base: nat, samples: nat, guided: bool, loads: Loads): (choices: seq<CompletionChoice>)
    ensures |choices| == samples * |round|
  {
    if samples == 0 then []
    else
      var earlier := RunChoices(round, answer, base, samples - 1, guided, loads);
      earlier + SampleChoices(round, answer, base + |earlier|, samples - 1, guided, loads)
  }

  /** One more sample: its choices follow the earlier ones, and its calls
      follow the earlier samples' calls. */
  lemma {:induction false} RunChoicesStep(round: seq<CompletionCall>, answer: (CompletionCall, nat) -> CompletionResponse,
                       base: nat, samples: nat, guided: bool, loads: Loads,
                       earlier: seq<CompletionChoice>, sample: seq<CompletionChoice>)
    requires earlier == RunChoices(round, answer, base, samples, guided, loads)
    requires sample == SampleChoices(round, answer, base + |Repeat(round, samples)|, samples, guided, loads)
    ensures earlier + sample == RunChoices(round, answer, base, samples + 1, guided, loads)
  {
  }

  /** Choice `k` of a run is built from the answer to call `k`, which the
      client sees as its `base + k`-th completion call, and its index is the
      sample number `k / |round|`. */
  lemma {:induction false} RunChoicesAt(round: seq<CompletionCall>, answer: (CompletionCall, nat) -> CompletionResponse,
                                        base: nat, samples: nat, guided: bool, loads: Loads, k: nat)
    requires k < samples * |round|
    ensures |round| > 0
    ensures RunChoices(round, answer, base, samples, guided, loads)[k]
         == CompletionChoiceFor(k / |round|, answer(Repeat(round, samples)[k], base + k), guided, loads)
  {
    var m := |round|;
    if m == 0 {
      assert false;
    }
    var earlier := RunChoices(round, answer, base, samples - 1, guided, loads);
    if k < (samples - 1) * m {
      RunChoicesAt(round, answer, base, samples - 1, guided, loads, k);
    } else {
      var j := k - (samples - 1) * m;
      DivModOfRound(samples - 1, j, m);
    }
  }

  /** For a request, choice `k` answers call `k` and carries index
      `k / |prompts|`: the `n` samples of one prompt share an index with the
      samples of every other prompt. */
  lemma {:induction false} CompletionChoiceAt(req: CompletionRequest, answer: (CompletionCall, nat) -> CompletionResponse,
                           base: nat, loads: Loads, k: nat)
    requires k < |CompletionCallsFor(req)|
    ensures |PromptsOf(req)| > 0
    ensures k / |PromptsOf(req)| < SampleCount(req.n)
    ensures RunChoices(RoundOf(req), answer, base, SampleCount(req.n), req.guidedChoice != [], loads)[k]
         == CompletionChoiceFor(k / |PromptsOf(req)|, answer(CompletionCallsFor(req)[k], base + k), req.guidedChoice != [], loads)
  {
    RunChoicesAt(RoundOf(req), answer, base, SampleCount(req.n), req.guidedChoice != [], loads, k);
    PositionInRound(k, SampleCount(req.n), |PromptsOf(req)|);
  }

  // ---------------------------------------------------------------------
  // Objects

  /** `Completions`: the `completions` attribute of the adapter. */
  class Completions {
    const client: InferenceClient

    constructor(client: InferenceClient)
      ensures this.client == client
    {
      this.client := client;
    }

    /** `create(**kwargs)`: one backend call per sample and prompt, one choice
        per call in call order. A choice's index is its sample number, so the
        indices repeat across prompts. `now` is the clock reading used for
        `created`; `loads` is `json.loads`. */
    method Create(req: CompletionRequest, now: int, loads: Loads) returns (response: Completion)
      modifies client
      ensures client.completionCalls == old(client.completionCalls) + CompletionCallsFor(req)
      ensures client.chatCalls == old(client.chatCalls)
      ensures response.choices == RunChoices(RoundOf(req), client.completionAnswer,
                |old(client.completionCalls)|, SampleCount(req.n), req.guidedChoice != [], loads)
      ensures response.id == "foo" && response.created == now
      ensures response.model == ModelIdOf(req) && response.kind == "text_completion"
    {
      var modelId := ModelIdOf(req);
      var prompts := PromptsOf(req);
      var samplingParams := BuildSamplingParams(req.maxTokens, req.temperature);
      var samples := SampleCount(req.n);
      var responseFormat := GuidedChoiceFormat(req.guidedChoice);
      var guided := req.guidedChoice != [];

      ghost var round := SampleRound(modelId, prompts, samplingParams, responseFormat);
      ghost var base := |client.completionCalls|;
      var choices: seq<CompletionChoice> := [];
      var i := 0;
      while i < samples
        invariant 0 <= i <= samples
        invariant client.completionCalls == old(client.completionCalls) + Repeat(round, i)
        invariant client.chatCalls == old(client.chatCalls)
        invariant choices == RunChoices(round, client.completionAnswer, base, i, guided, loads)
      {
        var sample := CreateSample(modelId, prompts, samplingParams, responseFormat, i, guided, loads);
        RunChoicesStep(round, client.completionAnswer, base, i, guided, loads, choices, sample);
        RepeatStep(old(client.completionCalls), round, i);
        choices := choices + sample;
        i := i + 1;
      }
      response := Completion("foo", choices, now, modelId, "text_completion");
    }

    /** The inner loop of `create`: sample `sample` of every prompt, one
        backend call each, in prompt order. */
    method CreateSample(modelId: Option<string>, prompts: seq<Option<string>>, samplingParams: SamplingParams,
                        responseFormat: Option<ResponseFormat>, sample: nat, guided: bool, loads: Loads)
      returns (choices: seq<CompletionChoice>)
      modifies client
      ensures client.completionCalls
           == old(client.completionCalls) + SampleRound(modelId, prompts, samplingParams, responseFormat)
      ensures client.chatCalls == old(client.chatCalls)
      ensures choices == SampleChoices(SampleRound(modelId, prompts, samplingParams, responseFormat),
                           client.completionAnswer, |old(client.completionCalls)|, sample, guided, loads)
    {
      ghost var round := SampleRound(modelId, prompts, samplingParams, responseFormat);
      ghost var calls := client.completionCalls + round;
      ghost var base := |client.completionCalls|;
      ghost var expected := SampleChoices(round, client.completionAnswer, base, sample, guided, loads);
      choices := [];
      for j := 0 to |prompts|
        invariant client.completionCalls == calls[..base + j]
        invariant client.chatCalls == old(client.chatCalls)
        invariant choices == expected[..j]
      {
        SliceExtend(calls, base + j);
        SliceExtend(expected, j);
        var lsResult := client.Completion(CompletionCall(modelId, prompts[j], samplingParams, responseFormat));
        choices := choices + [CompletionChoiceFor(sample, lsResult, guided, loads)];
      }
    }
  }

  // ---------------------------------------------------------------------
  // Chat completions

  /** The one backend request every chat sample sends: the caller's model and
      messages, an empty `SamplingParams()` and no response format. */
  function ChatCallFor(req: ChatRequest): (call: ChatCall)
    ensures call.samplingParams == EmptySamplingParams && call.responseFormat.None?
    ensures call.modelId == req.model && call.messages == req.messages
  {
    ChatCall(req.model, req.messages, EmptySamplingParams, None)
  }

  /** The chat choice built from one backend answer: the message keeps the
      backend's role and tool calls, and an empty or missing content becomes
      the empty string. */
  function ChatChoiceFor(index: int, response: ChatResponse): (choice: ChatChoice)
    ensures choice.index == index
    ensures choice.finishReason == MapStopReason(response.completionMessage.stopReason)
    ensures choice.message.role == response.completionMessage.role
    ensures choice.message.toolCalls == response.completionMessage.toolCalls
    ensures response.completionMessage.content.Some? ==> choice.message.content == response.completionMessage.content.value
    ensures response.completionMessage.content.None? ==> choice.message.content == ""
  {
    var message := response.completionMessage;
    ChatChoice(
      index,
      ChatMessage(message.role, if message.content.Some? then message.content.value else "", message.toolCalls),
      MapStopReason(message.stopReason))
  }

  /** The sampling options of a chat request never reach the backend. */
  lemma {:induction false} ChatIgnoresSamplingOptions(req: ChatRequest, maxTokens: Option<int>, temperature: Option<real>)
    ensures ChatCallFor(req.(maxTokens := maxTokens, temperature := temperature)) == ChatCallFor(req)
  {
  }

  /** `ChatCompletions`: the `chat.completions` attribute of the adapter. */
  class ChatCompletions {
    const client: InferenceClient

    constructor(client: InferenceClient)
      ensures this.client == client
    {
      this.client := client;
    }

    /** `create(**kwargs)`: one backend call per sample, all with the same
        request; choice `i` comes from call `i` and has index `i`. */
    method Create(req: ChatRequest) returns (response: ChatCompletion)
      modifies client
      ensures client.chatCalls == old(client.chatCalls) + Repeat([ChatCallFor(req)], SampleCount(req.n))
      ensures client.completionCalls == old(client.completionCalls)
      ensures |response.choices| == SampleCount(req.n)
      ensures forall i :: 0 <= i < |response.choices| ==>
        response.choices[i] == ChatChoiceFor(i, client.chatAnswer(ChatCallFor(req), |old(client.chatCalls)| + i))
      ensures response.id == "foo" && response.created == 0
      ensures response.model == "foo" && response.kind == "chat.completion"
    {
      var n := Get(req.n, 1);
      var call := ChatCallFor(req);
      ghost var base := |client.chatCalls|;
      var choices: seq<ChatChoice> := [];
      var i := 0;
      while i < n
        invariant 0 <= i <= SampleCount(req.n)
        invariant |choices| == i
        invariant client.chatCalls == old(client.chatCalls) + Repeat([call], i)
        invariant client.completionCalls == old(client.completionCalls)
        invariant forall k :: 0 <= k < i ==> choices[k] == ChatChoiceFor(k, client.chatAnswer(call, base + k))
      {
        var lsResult := client.ChatCompletion(call);
        choices := choices + [ChatChoiceFor(i, lsResult)];
        i := i + 1;
      }
      response := ChatCompletion("foo", choices, 0, "foo", "chat.completion");
    }
  }

  /** `Chat`: holds the chat completions object. */
  class Chat {
    const client: InferenceClient
    const completions: ChatCompletions

    constructor(client: InferenceClient)
      ensures this.client == client && completions.client == client
    {
      this.client := client;
      completions := new ChatCompletions(client);
    }
  }

  /** `OpenAIClientAdapter`, once its client has been checked. */
  class OpenAIClientAdapter {
    const client: InferenceClient
    const completions: Completions
    const chat: Chat

    constructor(client: InferenceClient)
      ensures this.client == client
      ensures completions.client == client && chat.client == client && chat.completions.client == client
    {
      this.client := client;
      completions := new Completions(client);
      chat := new Chat(client);
    }
  }

  /** `OpenAIClientAdapter(llama_stack_client)`: a missing client raises
      `ValueError` before anything is built; otherwise every part shares the
      given client. */
  method NewOpenAIClientAdapter(client: InferenceClient?) returns (adapter: Result<OpenAIClientAdapter>)
    ensures adapter.Failure? <==> client == null
    ensures adapter.Failure? ==> adapter.error == ValueError("A `llama_stack_client` must be provided.")
    ensures adapter.Success? ==>
      && fresh(adapter.value)
      && adapter.value.client == client
      && adapter.value.completions.client == client
      && adapter.value.chat.completions.client == client
  {
    if client == null {
      return Failure(ValueError("A `llama_stack_client` must be provided."));
    }
    var a := new OpenAIClientAdapter(client);
    adapter := Success(a);
  }
}
