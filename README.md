# GoogleAI adapter, prompt augmentation and assistant prompt — a Dafny model

This project models three pieces of the llm-client library and proves properties about them.

- **The GoogleAI model adapter** (`googleai.dfy`, module `GoogleAI`). It builds the request body for the completion and chat dialects. Either builder rejects more than four stop sequences. The adapter is constructed from an API key, a project and options. `Generate` picks the chat dialect exactly for the `chat-bison` model. It maps each provider reply into one uniform result, and usage is counted in characters. `Embed` checks its single input against the model's length limit, sends it and maps the reply. The HTTP transport is a function parameter `api` that returns a reply or the message of the error it raised. The adapter's fields are written once and only read afterwards, so the adapter is a read-only configuration record.
- **The prompt-augmentation collector** (`prompt.dfy`, module `Proxy`). `PromptUpdater` asks the remote memory first and the vector memory second. It appends what each returned to a local list, and a provider that throws contributes nothing. `ProcessAIRequest` passes those fragments to the request's middleware. It renders the prompt only when the middleware reports a change. Each provider call is an outcome value: `Threw`, `Nothing` or `Returned(fragments)`. The middleware is a class with the merged prompt, a changed flag, a render counter and a render function.
- **The assistant chat prompt** (`chats.dfy`, module `Chats`). It holds a fixed prompt configuration and the `Create` template. The template lays out a newline, the system text, the assistant description, the optional context block, a blank line, the history, the query line and the `AI:` line.

`wrappers.dfy` holds the `Option` and `Result` datatypes used throughout.

Three places where the model records what the code actually does:
- `embed` accepts an empty list of inputs. It then sends the empty string and reports 0 prompt tokens. It does not demand exactly one input.
- The length error's message always says "512 characters", even when the model's own limit applies. Error messages are not modelled; the error kinds are.
- A chat reply in which some prediction has no candidate makes the source throw when it reads `candidates[0]`. The model reports this as `MalformedResponse`. The pure mapper `MapChatResponse` requires every prediction to have a candidate. A reply whose shape belongs to another dialect is also reported as `MalformedResponse` in the model, although the source maps `{predictions: []}` of any shape successfully; the model's reply is a union of the three dialects' shapes, so an empty prediction list is only accepted in the dialect that was called.

## Model

| member | source | states |
|---|---|---|
| `GoogleAI.ModelInfoCountsCharacters` | src/ai/googleai.ts:41-69 | every catalogue entry counts characters as tokens, ids are distinct, and each of the three models has an entry |
| `GoogleAI.PresetOptions` | src/ai/googleai.ts:88-115 | the defaults are text-bison with gecko embeddings, 300 max tokens and top-k 40; the creative preset changes only the temperature (0.9); the fast preset equals the defaults |
| `GoogleAI.GenerateReq` | src/ai/googleai.ts:185-204 | fails, with the stop-sequence error, exactly when more than 4 stop sequences are given; otherwise one instance holding the prompt verbatim, with max tokens, temperature, top-p and top-k copied unchanged |
| `GoogleAI.GenerateChatReq` | src/ai/googleai.ts:206-225 | same limit and error; otherwise one instance whose context is the prompt, with no examples and no messages, and the sampling settings copied unchanged |
| `GoogleAI.StopSequencesNotSent` | src/ai/googleai.ts:190-203 | the stop sequences are only checked: any two admissible lists give the same payload in both dialects |
| `GoogleAI.NewGoogleAI` | src/ai/googleai.ts:236-256 | construction fails exactly when the API key is empty; otherwise it keeps the key and options and targets the endpoint of the configured model |
| `GoogleAI.NewDefaultGoogleAI` | src/ai/googleai.ts:236-240 | construction without options uses the defaults: it fails exactly when the key is empty, and otherwise targets the text-bison endpoint and takes the completion dialect |
| `GoogleAI.CreateAPI` | src/ai/googleai.ts:389-394 | every call carries the adapter's stored endpoint URL and API key |
| `GoogleAI.CallsTargetConfiguredModel` | src/ai/googleai.ts:236-256 | every call of a constructed adapter goes to the endpoint of the configured model in the given project, with the key it was constructed with |
| `GoogleAI.EndpointIdentifiesModel` | src/ai/googleai.ts:252-255 | within one project, two models with the same endpoint URL are the same model |
| `GoogleAI.GetModelConfig` | src/ai/googleai.ts:258-266 | the advertised configuration is the options' max tokens, temperature, top-p and top-k |
| `GoogleAI.RequestsFollowModelConfig` | src/ai/googleai.ts:216-224 | the parameters both builders send equal the advertised model configuration |
| `GoogleAI.SumLengthsAppend` | src/ai/googleai.ts:296-300 | the left-fold character count of a concatenation is the sum of the counts of its parts |
| `GoogleAI.MapTextResponse` | src/ai/googleai.ts:294-311 | one `{id:'', text: content}` per prediction in order; prompt tokens = prompt length; completion tokens = the characters of exactly the returned texts; total = prompt + completion |
| `GoogleAI.GenerateDefault` | src/ai/googleai.ts:283-312 | too many stop sequences fail before dispatch; otherwise the completion payload goes to the configured endpoint, a transport error propagates unchanged, and a text reply is mapped with a valid usage triple |
| `GoogleAI.ChatTokensSplit` | src/ai/googleai.ts:330-341 | counting every candidate of every prediction equals counting the first candidates plus all later candidates |
| `GoogleAI.MapChatResponse` | src/ai/googleai.ts:328-347 | one result per prediction from its first candidate only; completion tokens = characters of every candidate of every prediction, which equals the characters of the shown texts plus those of every hidden later candidate; total = prompt + completion |
| `GoogleAI.GenerateChat` | src/ai/googleai.ts:314-348 | too many stop sequences fail before dispatch; otherwise the chat payload is dispatched, a transport error propagates, a chat reply with a candidate per prediction is mapped, and any other reply is malformed |
| `GoogleAI.DialectOf` | src/ai/googleai.ts:273-277 | the chat dialect is chosen if and only if the model is `chat-bison` |
| `GoogleAI.Generate` | src/ai/googleai.ts:268-281 | the chat path for `chat-bison` and the completion path for every other model; too many stop sequences always fail; a success has total = prompt + completion and prompt tokens = prompt length |
| `GoogleAI.GenerateChecksBeforeDispatch` | src/ai/googleai.ts:273-292 | a request rejected for its stop sequences gives the same result whatever the transport does |
| `GoogleAI.ChatGreeting` | src/ai/googleai.ts:314-347 | a chat adapter asked "hello" whose provider answers "hi there" reports that one text and usage 5 / 8 / 13 |
| `GoogleAI.OverLimit` | src/ai/googleai.ts:360-362 | the inputs kept are exactly those longer than the limit |
| `GoogleAI.EmbedReq` | src/ai/googleai.ts:367 | one instance holding the first input, or the empty string when there is none |
| `GoogleAI.MapEmbedResponse` | src/ai/googleai.ts:374-386 | the first prediction's vector, or the empty vector; prompt tokens = length of the first input, or 0; completion tokens 0; total = prompt tokens |
| `GoogleAI.Embed` | src/ai/googleai.ts:350-387 | more than one input fails with the batch error; otherwise an input over the limit (model maximum, default 512) fails with the length error; both checks come before dispatch; otherwise the embedding payload is dispatched and its reply mapped |
| `GoogleAI.EmbedLimitBoundary` | src/ai/googleai.ts:360-365 | an input exactly as long as the limit passes the length check; one character longer is rejected |
| `Proxy.PromptUpdater` | src/proxy/prompt.ts:7-36 | the result is the remote fragments in their order followed by the vector fragments in their order; a provider that throws or returns nothing adds nothing and does not stop the other; the result is empty exactly when neither contributed |
| `Proxy.Middleware.AddRequest` | src/proxy/prompt.ts:42 | the middleware's prompt grows by exactly the collected fragments, and any fragment marks it as changed |
| `Proxy.Middleware.RenderRequest` | src/proxy/prompt.ts:45 | renders the merged prompt, clears the changed flag and counts one render |
| `Proxy.ProcessAIRequest` | src/proxy/prompt.ts:38-48 | merges the collected fragments; returns the rendered text and renders exactly once if the prompt changed, otherwise returns nothing and does not render |
| `Chats.NewAssistantPrompt` | src/prompts/chats.ts:11-18 | stores the context; the stop sequences are `Human:` and `AI:`, within the adapter's limit of 4; the query prefix is "\nHuman: " and the response prefix is "\nAI: " |
| `Chats.AssistantStopSequencesAccepted` | src/prompts/chats.ts:13 | both request builders accept the assistant's stop sequences |
| `Chats.Create` | src/prompts/chats.ts:20-30 | the prompt starts with a newline and ends with "\nAI:\n" |
| `Chats.CreateHeadLayout` | src/prompts/chats.ts:21-23 | in the prompt, the system text follows the leading newline verbatim and the description line follows it |
| `Chats.CreateBlockLayout` | src/prompts/chats.ts:24 | the context block stands right after the description line |
| `Chats.CreateTailLayout` | src/prompts/chats.ts:25-29 | after the block come a blank line, the history verbatim, "\nHuman: " and the query verbatim, and then only "\nAI:\n" |
| `Chats.QueryFollowsQueryPrefix` | src/prompts/chats.ts:14-27 | the query stands right after the configured query prefix |
| `Chats.ContextShownIffPresent` | src/prompts/chats.ts:24 | the "Use the following context:" block is shown exactly when the stored context is present and non-empty, and then the context follows it verbatim |
| `Chats.ContextOnlyAddsBlock` | src/prompts/chats.ts:21-29 | a prompt with a context is the prompt without one, with the block inserted after the description line and nothing else changed |

## Left out

- HTTP transport (`apiCall`, `createAPI`'s use of it): the transport is the parameter `api`, and its error is an opaque message that propagates.
- URL resolution: the endpoint is the base, the project, the model path and `:predict` concatenated. The model differs from `new URL` for project ids or model names containing characters that URL parsing interprets, removes or percent-encodes (`/`, `\`, `..`, `?`, `#`, `:`, spaces, tabs, newlines, quotes, angle brackets, non-ASCII characters), and `new URL` may throw on such input where the model always succeeds.
- The model catalogue lookup of the base class: `Embed` takes the model's maximum as an `Option<nat>` parameter.
- Floating-point values (temperature, top-p, prices, embedding vectors): carried as `real` and never computed with.
- JavaScript string length counts UTF-16 code units; the model counts the elements of `seq<char>`.
- Fields of the provider replies that the adapter never reads (safety attributes, citations) are not modelled; the embedding reply's model name is carried but never read.
- `async`/`await`, the `debug` flag and `console.error` logging: these concern I/O and logging only. The two lookups are sequential and are modelled as outcome values.
- The construction of `RemoteMemoryStore` and `VectorMemoryStore` sits outside the `try` blocks, and the store code is not part of this model: the model assumes the constructors do not throw. `PromptUpdater`'s failure isolation covers only the `getMemory` calls.
- Proxy.Middleware.AddRequest: the middleware belongs to code outside this model. The model assumes that it calls the updater once, appends what the updater returns, and marks the prompt as changed exactly when something was appended. It also assumes that rendering clears the changed flag, so `RenderRequest` clearing `updated` and `ProcessAIRequest`'s promise that the flag is clear afterwards rest on that assumption. `ProcessAIRequest` runs the updater and hands its fragments to `AddRequest`.
- The history callback of `create` is called once, so the model takes the string it returns.
- The base prompt class's own behaviour: the model keeps only the configuration passed to it.
