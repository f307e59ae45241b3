/** The caller side: the keyword arguments the adapter reads and the
    OpenAI-shaped records it returns. */
module OpenAI {
  import opened Python
  import opened Json
  import LlamaStack

  /** The `prompt` argument: a single value (a string, or `None`) or a list. */
  datatype PromptArg = Single(prompt: Option<string>) | Batch(prompts: seq<Option<string>>)

  /** The keyword arguments `completions.create` reads. A `max_tokens` or a
      `temperature` of `None` is the same as an absent one, and so is an
      empty or absent `extra_body["guided_choice"]`. */
  datatype CompletionRequest = CompletionRequest(
    model: Kwarg<Option<string>>,
    prompt: Kwarg<PromptArg>,
    n: Kwarg<int>,
    maxTokens: Option<int>,
    temperature: Option<real>,
    guidedChoice: seq<string>)

  /** The keyword arguments `chat.completions.create` is given. Only `model`,
      `messages` and `n` are read; the sampling options are carried so that
      the model can show they are ignored. */
  datatype ChatRequest = ChatRequest(
    model: Option<string>,
    messages: Option<seq<JsonValue>>,
    n: Kwarg<int>,
    maxTokens: Option<int>,
    temperature: Option<real>)

  /** `CompletionChoice`. The text is whatever Python object the adapter put
      there: the raw backend string, or an element of the parsed JSON. */
  datatype CompletionChoice = CompletionChoice(index: int, text: JsonValue, finishReason: string)

  /** `Completion`; `kind` is its `object` field. */
  datatype Completion = Completion(
    id: string,
    choices: seq<CompletionChoice>,
    created: int,
    model: Option<string>,
    kind: string)

  /** `ChatCompletionMessage`; the tool calls are the backend's own, untranslated. */
  datatype ChatMessage = ChatMessage(role: string, content: string, toolCalls: seq<LlamaStack.ToolCall>)

  /** `chat_completion.Choice`. */
  datatype ChatChoice = ChatChoice(index: int, message: ChatMessage, finishReason: string)

  /** `ChatCompletion`; `kind` is its `object` field. */
  datatype ChatCompletion = ChatCompletion(
    id: string,
    choices: seq<ChatChoice>,
    created: int,
    model: string,
    kind: string)
}
