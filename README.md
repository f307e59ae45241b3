# OpenAI-to-Llama-Stack client adapter, modelled in Dafny

The adapter gives a Llama Stack inference client the surface of the OpenAI
Python client: `completions.create` and `chat.completions.create` take
OpenAI-style keyword arguments. For each one the adapter sends Llama Stack
`inference.completion` / `inference.chat_completion` requests and wraps the
answers in OpenAI `Completion` / `ChatCompletion` envelopes. Two revisions of
the adapter are modelled:

- `ClientAdapter` (`client_adapter.dfy`) models the current
  `src/lls_openai_client/client_adapter.py`. It has:
  - a total stop-reason table;
  - sampling parameters chosen by the truthiness of `max_tokens` and
    `temperature`;
  - a guided-choice JSON schema built from the anchored alternation
    `^(c1|c2|...)$`;
  - a best-effort decode of guided answers;
  - the nested loop of `Completions.create`, with samples outside and
    prompts inside;
  - the per-sample loop of `ChatCompletions.create`;
  - the constructor guard.
- `LegacyClientAdapter` (`legacy_client_adapter.dfy`) models the older
  `src/lls-openai-client/client_adapter.py`:
  - `model` and `prompt` are required keys;
  - an unknown stop reason raises `KeyError`;
  - the guided decode `json.loads(content)[0]` raises on bad answers;
  - chat completion is a stub.

  Both revisions build requests with the same code, so the older revision
  reuses `ClientAdapter`'s request side.

Supporting modules:

- `LlamaStack` (`llama_stack.dfy`): the backend request and response records,
  and the class `InferenceClient`.
  - The client records every call, in order, in a log (`completionCalls`,
    `chatCalls`).
  - It answers through fixed functions of the call and of the call's position
    in the log. So the model says which calls are made, in what order, and
    how each choice comes from the answer to one call.
- `OpenAI` (`openai_types.dfy`): the keyword arguments read and the records
  returned.
- `Json` (`json.dfy`): parsed JSON values. `json.loads` is a parameter
  `loads: string -> Option<JsonValue>`, where `None` is a `JSONDecodeError`.
- `Python` (`python.dfy`) provides:
  - `Option`, `Result` (a value or a raised exception) and `Kwarg` (a keyword
    argument that may be absent);
  - truthiness;
  - `Run`, `RunUntilRaise` and `RunRounds`, which describe a loop, and a loop
    of loops, whose body may raise and whose already issued calls stay made.
- `Sequences` (`sequences.dfy`): `Repeat` (a round of calls made once per
  sample) and its index arithmetic.
- `Strings` (`strings.dfy`): single-character `join`, `split` and the
  substring test.

`Completions.Create` in both revisions and the current revision's
`ChatCompletions.Create` are loops over the client object. Each is proved
against specification functions: `CompletionCallsFor` / `RunChoices` and
`ChatCallFor` / `ChatChoiceFor` for the current revision, and `LegacyRun` for
the older one. The older revision's `ChatCompletions.Create` is a stub that
makes no call. The lemmas then state what the source promises about those
functions: call counts, call order, which prompt each call sends, and which
answer each choice comes from. For the older revision the lemmas also say
where a run stops, what a run that returns gives (one choice per call, and
no call whose choice raised), and that it agrees with the current revision on
well-formed answers (a known stop reason and, with guided choice, content
that parses to a non-empty list).

The older revision's missing keys, unknown stop reasons and failed decodes
raise in Python. They are modelled as an error path (`Result.Failure` carrying
the Python exception), not as preconditions. The calls made before the
exception stay in the client's log, as they do in the source.

## Model

| member | source | states |
|---|---|---|
| ClientAdapter.MapStopReason | src/lls_openai_client/client_adapter.py:23-31 | `end_of_turn` and `end_of_message` give `stop`, `out_of_tokens` gives `length`; the result is `""` exactly for every other code, so the lookup never fails |
| ClientAdapter.NormalizePrompts | src/lls_openai_client/client_adapter.py:40-45 | a non-list prompt becomes a one-element list; a list prompt is used unchanged and in order |
| ClientAdapter.SampleCount | src/lls_openai_client/client_adapter.py:48 | `range(0, n)` runs `n` times when `n` is positive and never otherwise; an absent `n` counts as 1 |
| ClientAdapter.SamplingParamsFor | src/lls_openai_client/client_adapter.py:47-62 | `max_tokens` is set iff it is truthy, and then to the caller's value; a strategy is set iff the temperature is truthy, and then it is top-p with that temperature and `top_p` 1.0 |
| ClientAdapter.BuildSamplingParams | src/lls_openai_client/client_adapter.py:47-62 | filling an empty `SamplingParams()` key by key yields exactly `SamplingParamsFor` |
| ClientAdapter.GuidedChoiceFormat | src/lls_openai_client/client_adapter.py:66-80 | no response format iff `guided_choice` is empty; otherwise a `json_schema` format for an array of exactly one string whose pattern is the choices joined by the bar character, wrapped in `^(` and `)$` |
| ClientAdapter.PatternContainsChoice | tests/unit/test_client_adapter.py:8-14 | every allowed string occurs in the pattern |
| ClientAdapter.PatternRecoversChoices | src/lls_openai_client/client_adapter.py:70-75 | when no allowed string contains the bar character, splitting the pattern's body on that character gives back the allowed strings in order |
| ClientAdapter.PatternSplitsChoiceWithBar | src/lls_openai_client/client_adapter.py:70-75 | the strings are not escaped: the single choice made of `yes`, the bar character and `no` gives the two alternatives `yes` and `no` |
| ClientAdapter.DecodeCompletionText | src/lls_openai_client/client_adapter.py:97-105 | without guided choice the text is the raw content; with it, a content that parses to a non-empty list gives the list's first element, and a parse error, a non-list value or an empty list gives the raw content, never an error |
| ClientAdapter.GuidedAnswerDecodesToChoice | tests/functional/test_client_e2e_roundtrip.py:166-187 | an answer that is a one-element list holding an allowed string, as the schema asks for, decodes to that string |
| ClientAdapter.CompletionChoiceFor | src/lls_openai_client/client_adapter.py:107-114 | the choice carries the given index, the text `DecodeCompletionText` gives (the raw content without guided choice) and the stop reason `MapStopReason` gives, which is one of `stop`, `length` or empty, and empty exactly for an unknown code |
| ClientAdapter.CompletionCallAt | src/lls_openai_client/client_adapter.py:84-95 | `create` makes `n * len(prompts)` calls; call `k` sends prompt `k mod len(prompts)` with the shared model, sampling parameters and response format |
| ClientAdapter.BatchOfTwoPromptsThreeSamples | tests/functional/test_completions.py:33-47 | two prompts with `n=3` and `max_tokens=1` make six calls, each carrying the caller's model and `max_tokens` 1 |
| ClientAdapter.RunChoicesAt | src/lls_openai_client/client_adapter.py:84-115 | choice `k` of a run is built from the answer to call `k` (the client's `base + k`-th completion call), and its index is the sample number `k / len(round)` |
| ClientAdapter.CompletionChoiceAt | src/lls_openai_client/client_adapter.py:107-115 | for a request, choice `k` answers call `k`; its index `k / len(prompts)` is a sample number below `n`, so indices repeat across prompts |
| ClientAdapter.Completions.Create | src/lls_openai_client/client_adapter.py:38-123 | the client's log grows by exactly `CompletionCallsFor(req)`, and no chat call is made; the choices are `RunChoices` of the answers; the envelope has id `foo`, the clock reading, the caller's model and `text_completion` |
| ClientAdapter.Completions.CreateSample | src/lls_openai_client/client_adapter.py:89-115 | one sample: one call per prompt in prompt order, and one choice per answer with the sample number as its index |
| ClientAdapter.ChatCallFor | src/lls_openai_client/client_adapter.py:131-145 | each chat call carries the caller's model and messages, an empty `SamplingParams()` and no response format |
| ClientAdapter.ChatChoiceFor | src/lls_openai_client/client_adapter.py:147-161 | the chat choice keeps the backend's role and tool calls, the content or `""` when it is missing, the mapped stop reason and the given index |
| ClientAdapter.ChatIgnoresSamplingOptions | src/lls_openai_client/client_adapter.py:130-145 | a chat request's `max_tokens` and `temperature` never reach the backend |
| ClientAdapter.ChatCompletions.Create | src/lls_openai_client/client_adapter.py:130-170 | exactly `n` identical chat calls and no completion call; choice `i` comes from the answer to call `i` and has index `i`; the envelope has id `foo`, created 0, model `foo` and `chat.completion` |
| ClientAdapter.NewOpenAIClientAdapter | src/lls_openai_client/client_adapter.py:195-202 | a missing client raises `ValueError` with the source's message and builds nothing; otherwise every part shares the given client |
| LegacyClientAdapter.StopReason | src/lls-openai-client/client_adapter.py:69-73 | the lookup succeeds iff the code is one of the three known ones, and then agrees with the current table; any other code raises `KeyError` of that code |
| LegacyClientAdapter.FirstItem | src/lls-openai-client/client_adapter.py:93 | `value[0]` succeeds exactly on a non-empty list (its first element) or a non-empty string (its first character); an empty list or string raises `IndexError`, an object raises `KeyError` for the integer key 0, and `null`, a boolean or a number raises `TypeError` |
| LegacyClientAdapter.DecodeText | src/lls-openai-client/client_adapter.py:89-95 | a parse error raises `JSONDecodeError`; otherwise indexing the parsed value decides, with no fallback |
| LegacyClientAdapter.ChoiceFor | src/lls-openai-client/client_adapter.py:89-104 | a built choice carries the given index, the raw content as text without guided choice and the decoded first item with it, and the current revision's mapped finish reason, `stop` or `length`; with guided choice, content that does not parse raises `JSONDecodeError` |
| LegacyClientAdapter.ChoiceForRaises | src/lls-openai-client/client_adapter.py:89-104 | building a choice raises iff the guided decode raises or the stop reason is unknown; a decode error is raised first, otherwise the `KeyError` |
| LegacyClientAdapter.ChoiceAgreesWithCurrent | src/lls-openai-client/client_adapter.py:89-104 | on a known stop reason and, with guided choice, content parsing to a non-empty list, the choice equals the current revision's |
| LegacyClientAdapter.BareStringTakesFirstCharacter | src/lls-openai-client/client_adapter.py:93 | content parsing to a non-empty JSON string gives its first character here, but the raw content in the current revision |
| LegacyClientAdapter.ChoiceStepsAt | src/lls-openai-client/client_adapter.py:81-104 | step `t` of a sample is the choice (or exception) built from the answer to the `t`-th prompt's call |
| LegacyClientAdapter.SampleRunsAt | src/lls-openai-client/client_adapter.py:76-105 | sample `s` starts at the client's `base + s * len(prompts)`-th completion call |
| LegacyClientAdapter.SampleRunReachesPrefix | src/lls-openai-client/client_adapter.py:81-105 | one sample makes a prefix of its calls, and all of them when it does not raise |
| LegacyClientAdapter.SampleRunRaisesAt | src/lls-openai-client/client_adapter.py:81-105 | a sample that raises made the calls of a prefix of its round and raised at the last of them, with the exception that building that call's choice raised; the choice for every earlier call was built without raising |
| LegacyClientAdapter.SampleRunRaisesAfter | src/lls-openai-client/client_adapter.py:81-105 | in a sample that raised, the choice for any call before the last one it made was built without raising |
| LegacyClientAdapter.SampleRunsReachPrefix | src/lls-openai-client/client_adapter.py:76-105 | every sample makes a prefix of its calls, and all of them when it does not raise |
| LegacyClientAdapter.LegacyRunMakesPrefixOfCalls | src/lls-openai-client/client_adapter.py:76-105 | the older revision makes a prefix of the current revision's calls, in the same sample-outer, prompt-inner order, and all `n * len(prompts)` of them when it does not raise |
| LegacyClientAdapter.LegacyRunRaisesAtLastCall | src/lls-openai-client/client_adapter.py:76-105 | a run that raises stops right after the call whose choice raised; the run's exception is that choice's, built with index `(len(calls) - 1) / len(prompts)`; every earlier call's choice was built without raising, so it is the first whose choice raised |
| LegacyClientAdapter.LegacyRunRaisesAtFirstFailure | src/lls-openai-client/client_adapter.py:76-105 | in a run that raises, the choice for every call before the last one made, call `k` built with index `k / len(prompts)`, was built without raising |
| LegacyClientAdapter.SampleRunReturnsChoices | src/lls-openai-client/client_adapter.py:81-105 | a sample that returns gives one choice per prompt, and choice `t` is what building the choice from the answer to call `t` returned, with the sample number as index |
| LegacyClientAdapter.SampleRunsReturnOneChoicePerCall | src/lls-openai-client/client_adapter.py:76-105 | every sample that returns gives one choice per prompt |
| LegacyClientAdapter.LegacyRunReturnsChoiceAt | src/lls-openai-client/client_adapter.py:76-105 | choice `k` of a run that returns was built, without raising, from the answer to call `k` (the client's `base + k`-th completion call) with index `k / len(prompts)` |
| LegacyClientAdapter.LegacyRunReturnsChoices | src/lls-openai-client/client_adapter.py:76-105 | whatever the answers, a run that returns gives `n * len(prompts)` choices, and choice `k` was built without raising from the answer to call `k` with index `k / len(prompts)` |
| LegacyClientAdapter.LegacyRunReturnsWhenNoChoiceRaises | src/lls-openai-client/client_adapter.py:76-105 | conversely, a run in which building no choice raises returns |
| LegacyClientAdapter.SampleRunAgreesWithCurrent | src/lls-openai-client/client_adapter.py:81-105 | a sample whose answers are all well formed makes all its calls and returns the current revision's choices for them |
| LegacyClientAdapter.SampleChoicesListAt | src/lls_openai_client/client_adapter.py:84-115 | entry `s` of the per-sample list holds the current revision's choices for sample `s` |
| LegacyClientAdapter.RunChoicesIsConcat | src/lls_openai_client/client_adapter.py:84-115 | the current revision's choices for the first `n` samples are those samples' choices one after the other |
| LegacyClientAdapter.AnswersWellFormedOfSample | src/lls-openai-client/client_adapter.py:76-105 | the answers of one sample are among the answers of the whole run |
| LegacyClientAdapter.WellFormedRunAgreesWithCurrent | src/lls-openai-client/client_adapter.py:76-105 | when every answer is well formed, the older revision makes exactly the current revision's calls and returns exactly its choices |
| LegacyClientAdapter.Completions.Create | src/lls-openai-client/client_adapter.py:23-113 | a missing `model` or `prompt` raises `KeyError` before any call; otherwise the log grows by `LegacyRun`'s calls, and the outcome is its exception or the `text_completion` envelope with id `foo`, the clock reading and the caller's model |
| LegacyClientAdapter.Completions.CreateSample | src/lls-openai-client/client_adapter.py:81-105 | one sample: calls in prompt order up to and including the first answer whose choice raises; the outcome is that exception or all choices |
| LegacyClientAdapter.ChatCompletions.Create | src/lls-openai-client/client_adapter.py:120-130 | the stub makes no backend call and returns no choices in a `text_completion` envelope with id and model `foo` and created 0 |
| LegacyClientAdapter.NewOpenAIClientAdapter | src/lls-openai-client/client_adapter.py:155-162 | a missing client raises `ValueError` and builds nothing; otherwise every part shares the given client |
| Python.RunUntilRaiseStep | src/lls-openai-client/client_adapter.py:81-105 | one more step of a loop that has not raised adds its item and either its value or its exception |
| Python.RunUntilRaiseStops | src/lls-openai-client/client_adapter.py:81-105 | once a step has raised, the rest of the loop does nothing |
| Python.RunUntilRaiseRaisesAtLast | src/lls-openai-client/client_adapter.py:81-105 | a loop that raised reached a prefix of its items and raised at the last one, with that step's exception, after every earlier step returned |
| Python.RunUntilRaiseReturns | src/lls-openai-client/client_adapter.py:81-105 | a loop that has not raised reached every item so far, returned one value per step, and value `t` is what step `t` returned |
| Python.RunUntilRaiseCompletes | src/lls-openai-client/client_adapter.py:81-105 | when no step raises, the loop reaches every item and returns every value in order |
| Python.RunRoundsStep | src/lls-openai-client/client_adapter.py:76-105 | one more round of an outer loop that has not raised adds what that round reached and its values or its exception |
| Python.RunRoundsRaisesAt | src/lls-openai-client/client_adapter.py:76-105 | a round that raises after rounds that returned ends the outer loop with its exception |
| Python.RunRoundsStops | src/lls-openai-client/client_adapter.py:76-105 | once a round has raised, further rounds change nothing |
| Python.RunRoundsAgree | src/lls-openai-client/client_adapter.py:76-105 | the outer loop over the first `samples` rounds depends on those rounds only |
| Python.RunRoundsOfRepeats | src/lls-openai-client/client_adapter.py:76-105 | when each round reaches a prefix of the same items, and all of them when it returns, the outer loop reaches a prefix of the repeated items, and all of them when it returns |
| Python.RunRoundsRaisesIn | src/lls-openai-client/client_adapter.py:76-105 | an outer loop that raises does so in some round `s`; the first `s` rounds returned, each having reached all of its items |
| Python.RunRoundsReturnsRepeat | src/lls-openai-client/client_adapter.py:76-105 | an outer loop that returns reached every item of every round |
| Python.RunRoundsReturnsLength | src/lls-openai-client/client_adapter.py:76-105 | an outer loop that returns, over rounds that each return `m` values, returns `samples * m` values |
| Python.RunRoundsReturnsAt | src/lls-openai-client/client_adapter.py:76-105 | value `k` of such a loop is value `k mod m` of round `k / m`, and that round returned |
| Python.RunRoundsAllReturn | src/lls-openai-client/client_adapter.py:76-105 | when every round returns having reached all the items, the outer loop returns them repeated and the rounds' values one after the other |
| Sequences.RepeatAt | src/lls_openai_client/client_adapter.py:84-89 | element `j` of copy `i` of a repeated round sits at position `i * len(round) + j` |
| Sequences.DivModOfRound | src/lls_openai_client/client_adapter.py:84-89 | position `i * m + j` with `j < m` belongs to round `i` at offset `j` |
| Sequences.RepeatThenPrefixLast | src/lls-openai-client/client_adapter.py:76-105 | the last of `n` whole rounds followed by `k` calls of the next is that round's `k`-th call, and it belongs to round `n` |
| Sequences.RepeatPrefix | src/lls_openai_client/client_adapter.py:84-89 | for any `n <= m`, the calls of `n` samples are a prefix of the calls of `m` samples |
| Strings.SplitJoin | src/lls_openai_client/client_adapter.py:70 | splitting a join on its one-character separator gives the parts back when no part holds the separator |
| Strings.JoinContainsPart | src/lls_openai_client/client_adapter.py:70 | every part occurs in the joined string |

## Left out

- Pydantic validation of the OpenAI records is not modelled; the records are plain datatypes. In the source, building `OpenAICompletionChoice` or `OpenAIChatCompletionChoice` raises a validation error for a `finish_reason` of `""` (an unknown stop code in the current revision) and for a guided `text` that is not a string (a decoded number, list or object). The model builds those records regardless.
- ClientAdapter.ChatChoiceFor: "keeps the backend's tool calls" holds in the model only. The current revision (line 151) passes Llama Stack tool-call objects into the `tool_calls` field of OpenAI's `ChatCompletionMessage`, which is typed for OpenAI tool calls. By those annotations, a non-empty list would fail validation. Tool calls are opaque values here.
- ClientAdapter.MapStopReason: "the lookup never fails" holds for the table lookup at lines 23-31; the choice built from an unknown code still fails Pydantic validation in the source, which the model does not capture.
- ClientAdapter.DecodeCompletionText: "never an error" holds for the decode; a non-string first element still fails Pydantic validation when the choice is built, which the model does not capture.
- The backend calls never raise in the model: `InferenceClient.Completion` and `ChatCompletion` always answer. In the source, an exception from `inference.completion` (current revision lines 90-95, older revision lines 82-87) or `inference.chat_completion` (current revision lines 140-145) ends `create` with no envelope, after the earlier calls were made.
- An explicit `extra_body=None` is not modelled: the guided choices are a list of strings that may be empty. In the source, `kwargs.get("extra_body", {})` returns `None`, and `.get` on it raises `AttributeError` (current revision lines 67-68, older revision lines 52-53).
- The real Llama Stack client is replaced by `InferenceClient`, an oracle with call logs. The HTTP transport, the `base_url` property, the `get` delegation and `Models.list` are not modelled; they only pass calls through to that client.
- `json.loads` is the parameter `loads`; its parsing is not modelled.
- `int(time.time())` is the parameter `now` of `Completions.Create`.
- The `print` in the older chat stub is I/O and is left out.
- An explicit `model=None` and an absent `model` coincide in the current revision, which uses `kwargs.get`. The model keeps them apart only where the older revision does (`kwargs["model"]`).
- Prompt contents are narrowed to a string or `None` (`Option<string>`). The source also accepts other values, such as a list of token-id lists: it splits any list into prompts and forwards each element unchanged (current revision lines 44-45). The model cannot express those elements.
- `n=None` is not modelled: `n` is an integer or absent. In Python `range(0, None)` raises `TypeError`.
- A `guided_choice` given as a string is not modelled. Python joins its characters; the model takes a list of strings.
- `max_tokens` is an integer and `temperature` a `real`. Neither is used in arithmetic; the adapter only checks their truthiness and copies them. Floating-point details and other truthy types are not modelled.
- Chat messages and tool calls are opaque values forwarded unchanged, because the source does no translation.
- The client check `not self.lls_client` is modelled as a null test. A client object with a custom `__bool__` or `__len__` is not modelled.
- `Completions.CreateSample` in both revisions is the inner `for prompt in prompts` loop of `create`, written as a method of its own. The source has it inline.
