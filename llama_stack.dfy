/** The backend side: the request and response shapes of the Llama Stack
    inference API, and the inference client the adapter calls. */
module LlamaStack {
  import opened Python
  import opened Json

  /** `StrategyTopPSamplingStrategy(type="top_p", temperature=..., top_p=...)`. */
  datatype Strategy = TopP(temperature: real, topP: real)

  /** `SamplingParams`, a dictionary whose keys are set one at a time;
      `None` stands for a key that was never set. */
  datatype SamplingParams = SamplingParams(maxTokens: Option<int>, strategy: Option<Strategy>)

  /** `SamplingParams()` with no key set. */
  const EmptySamplingParams := SamplingParams(None, None)

  /** `{"type": "string", "pattern": ...}`. */
  datatype ItemSchema = ItemSchema(itemType: string, pattern: string)

  /** `{"type": "array", "minItems": ..., "maxItems": ..., "items": ...}`. */
  datatype ArraySchema = ArraySchema(schemaType: string, minItems: int, maxItems: int, items: ItemSchema)

  /** `JsonSchemaResponseFormat(type=..., json_schema=...)`. */
  datatype ResponseFormat = ResponseFormat(formatType: string, jsonSchema: ArraySchema)

  /** The arguments of one `inference.completion` call. */
  datatype CompletionCall = CompletionCall(
    modelId: Option<string>,
    content: Option<string>,
    samplingParams: SamplingParams,
    responseFormat: Option<ResponseFormat>)

  /** What `inference.completion` returns. */
  datatype CompletionResponse = CompletionResponse(content: string, stopReason: string)

  /** A tool call as the backend reports it. */
  datatype ToolCall = ToolCall(callId: string, toolName: string, arguments: string)

  /** The message inside a chat completion result; its content may be `None`. */
  datatype CompletionMessage = CompletionMessage(
    role: string,
    content: Option<string>,
    stopReason: string,
    toolCalls: seq<ToolCall>)

  /** The arguments of one `inference.chat_completion` call; the messages are
      whatever the caller passed, forwarded untouched. */
  datatype ChatCall = ChatCall(
    modelId: Option<string>,
    messages: Option<seq<JsonValue>>,
    samplingParams: SamplingParams,
    responseFormat: Option<ResponseFormat>)

  /** What `inference.chat_completion` returns. */
  datatype ChatResponse = ChatResponse(completionMessage: CompletionMessage)

  /** The inference client. Its answers are not modelled: the answer to a call
      is some fixed function of the call and of how many calls of that kind
      came before it, so repeated identical calls may answer differently.
      Every call is recorded, in order, in a log. */
  class InferenceClient {
    const completionAnswer: (CompletionCall, nat) -> CompletionResponse
    const chatAnswer: (ChatCall, nat) -> ChatResponse
    var completionCalls: seq<CompletionCall>
    var chatCalls: seq<ChatCall>

    constructor(completionAnswer: (CompletionCall, nat) -> CompletionResponse,
                chatAnswer: (ChatCall, nat) -> ChatResponse)
      ensures this.completionAnswer == completionAnswer && this.chatAnswer == chatAnswer
      ensures completionCalls == [] && chatCalls == []
    {
      this.completionAnswer := completionAnswer;
      this.chatAnswer := chatAnswer;
      completionCalls := [];
      chatCalls := [];
    }

    /** `inference.completion(...)`. */
    method Completion(call: CompletionCall) returns (response: CompletionResponse)
      modifies this
      ensures completionCalls == old(completionCalls) + [call]
      ensures chatCalls == old(chatCalls)
      ensures response == completionAnswer(call, |old(completionCalls)|)
    {
      response := completionAnswer(call, |completionCalls|);
      completionCalls := completionCalls + [call];
    }

    /** `inference.chat_completion(...)`. */
    method ChatCompletion(call: ChatCall) returns (response: ChatResponse)
      modifies this
      ensures chatCalls == old(chatCalls) + [call]
      ensures completionCalls == old(completionCalls)
      ensures response == chatAnswer(call, |old(chatCalls)|)
    {
      response := chatAnswer(call, |chatCalls|);
      chatCalls := chatCalls + [call];
    }
  }
}
